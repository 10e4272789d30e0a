/** The CNC client of src-tauri/src/fwlib.rs: a `FocasClient` owning one
    FOCAS library handle (0 when disconnected), a busy flag, and, for a
    client created with the address "dummy", an in-memory table of tool
    offsets standing in for the machine.

    The FOCAS library itself is foreign code.  Each native call is replaced
    by the value it returns, passed in as a parameter: a return code (0 is
    success) and the data or handle it writes back.  The write path retries
    and reconnects without bound; it is driven by a finite script of such
    results, and when the script runs out before the call returns the model
    reports that the call is still retrying. */
module Fwlib {
  import opened RustTypes

  /** The FOCAS return code of a call that succeeded (EW_OK). */
  const EwOk: int := 0

  /** The dummy client's stand-in for the machine. */
  datatype DummyState = DummyState(offsets: map<int, int>, life: int, count: int)

  /** The dummy client's offset `number`: the last value written, 0 if none. */
  function StoredOffset(s: DummyState, number: int): int
  {
    if number in s.offsets then s.offsets[number] else 0
  }

  /** The dummy client's write: offset `number` becomes `data`. */
  function StoreOffset(s: DummyState, number: int, data: int): (t: DummyState)
    ensures StoredOffset(t, number) == data
    ensures forall n :: n != number ==> StoredOffset(t, n) == StoredOffset(s, n)
    ensures t.life == s.life && t.count == s.count
  {
    s.(offsets := s.offsets[number := data])
  }

  /** The tool-offset record `cnc_rdtofs` fills in. */
  datatype Odbtofs = Odbtofs(datano: int, ofsType: int, data: int)

  datatype FocasError =
    | Busy                 // busy, or not connected: the call was not made
    | AllocFailed(code: int)
    | NativeFailed(code: int)

  /** What one native call returned: its code and, for `cnc_allclibhndl3`,
      the handle it stored. */
  datatype NativeReturn = NativeReturn(code: int, handle: U16)

  datatype WriteOutcome = WriteOk | WriteErr(error: FocasError) | StillRetrying

  // ---------------------------------------------------------------------
  // The retry-and-reconnect loop of `wrtofs`, as a function of the script

  datatype Phase = Writing | Reconnecting

  /** Where the loop ends: whether a write succeeded, the handle stored, the
      handles passed to `cnc_wrtofs` and to `cnc_freelibhndl` in order, and
      how many native results it used. */
  datatype RetryEnd = RetryEnd(written: bool, handle: U16, writeHandles: seq<U16>, freed: seq<U16>, used: nat)

  /** From `phase`, holding handle `h`: a write that fails frees `h`, stores
      0 and reconnects; a connect attempt that fails is repeated; one that
      succeeds stores its handle and the write is tried again. */
  function Retry(phase: Phase, h: U16, script: seq<NativeReturn>): (r: RetryEnd)
    ensures r.used <= |script|
    ensures r.written ==> 0 < r.used && script[r.used - 1].code == EwOk
    ensures !r.written ==> r.used == |script|
    decreases |script|
  {
    if script == [] then RetryEnd(false, h, [], [], 0)
    else
      match phase
      case Writing =>
        if script[0].code == EwOk then RetryEnd(true, h, [h], [], 1)
        else
          var t := Retry(Reconnecting, 0, script[1..]);
          RetryEnd(t.written, t.handle, [h] + t.writeHandles, [h] + t.freed, t.used + 1)
      case Reconnecting =>
        var t := if script[0].code == EwOk then Retry(Writing, script[0].handle, script[1..])
                 else Retry(Reconnecting, 0, script[1..]);
        t.(used := t.used + 1)
  }

  /** A loop end `t` reached after `used` results, with `writeHandles` and
      `freed` already recorded. */
  function Resume(writeHandles: seq<U16>, freed: seq<U16>, used: nat, t: RetryEnd): RetryEnd
  {
    RetryEnd(t.written, t.handle, writeHandles + t.writeHandles, freed + t.freed, used + t.used)
  }

  /** One step of the loop, in terms of `Resume`. */
  lemma RetryStep(phase: Phase, h: U16, s: seq<NativeReturn>, writeHandles: seq<U16>, freed: seq<U16>, used: nat)
    ensures s == [] ==>
      Resume(writeHandles, freed, used, Retry(phase, h, s)) == RetryEnd(false, h, writeHandles, freed, used)
    ensures s != [] && phase == Writing && s[0].code == EwOk ==>
      Resume(writeHandles, freed, used, Retry(phase, h, s)) == RetryEnd(true, h, writeHandles + [h], freed, used + 1)
    ensures s != [] && phase == Writing && s[0].code != EwOk ==>
      Resume(writeHandles, freed, used, Retry(phase, h, s))
      == Resume(writeHandles + [h], freed + [h], used + 1, Retry(Reconnecting, 0, s[1..]))
    ensures s != [] && phase == Reconnecting && s[0].code == EwOk ==>
      Resume(writeHandles, freed, used, Retry(phase, h, s))
      == Resume(writeHandles, freed, used + 1, Retry(Writing, s[0].handle, s[1..]))
    ensures s != [] && phase == Reconnecting && s[0].code != EwOk ==>
      Resume(writeHandles, freed, used, Retry(phase, h, s))
      == Resume(writeHandles, freed, used + 1, Retry(Reconnecting, 0, s[1..]))
  {
    if s != [] && phase == Writing && s[0].code != EwOk {
      var t := Retry(Reconnecting, 0, s[1..]);
      assert writeHandles + ([h] + t.writeHandles) == writeHandles + [h] + t.writeHandles;
      assert freed + ([h] + t.freed) == freed + [h] + t.freed;
    }
  }

  /** Every handle a failed write used is freed, in order; the handle of the
      write that succeeded is the one kept. */
  lemma {:induction false} RetryFreesFailedHandles(phase: Phase, h: U16, script: seq<NativeReturn>)
    ensures var r := Retry(phase, h, script);
      && (r.written ==> |r.writeHandles| > 0 && r.handle == r.writeHandles[|r.writeHandles| - 1]
                        && r.freed == r.writeHandles[..|r.writeHandles| - 1])
      && (!r.written ==> r.freed == r.writeHandles)
    decreases |script|
  {
    if script != [] {
      match phase
      case Writing =>
        if script[0].code != EwOk {
          RetryFreesFailedHandles(Reconnecting, 0, script[1..]);
        }
      case Reconnecting =>
        if script[0].code == EwOk {
          RetryFreesFailedHandles(Writing, script[0].handle, script[1..]);
        } else {
          RetryFreesFailedHandles(Reconnecting, 0, script[1..]);
        }
    }
  }

  /** While every native call fails, the write never succeeds, and once the
      first write has failed the client holds no handle. */
  lemma {:induction false} RetryWhileNativeFails(phase: Phase, h: U16, script: seq<NativeReturn>)
    requires forall j :: 0 <= j < |script| ==> script[j].code != EwOk
    requires phase == Reconnecting ==> h == 0
    ensures var r := Retry(phase, h, script);
      && !r.written
      && (script != [] ==> r.handle == 0)
      && r.writeHandles == (if phase == Writing && script != [] then [h] else [])
    decreases |script|
  {
    if script != [] {
      RetryWhileNativeFails(Reconnecting, 0, script[1..]);
    }
  }

  /** `n` failed connection attempts. */
  function FailedConnects(n: nat, code: int): (s: seq<NativeReturn>)
    requires code != EwOk
    ensures |s| == n && forall j :: 0 <= j < n ==> s[j].code != EwOk
  {
    if n == 0 then [] else [NativeReturn(code, 0)] + FailedConnects(n - 1, code)
  }

  /** Failed connection attempts are skipped over, each using one result. */
  lemma {:induction false} ReconnectSkipsFailures(n: nat, code: int, rest: seq<NativeReturn>)
    requires code != EwOk
    ensures Retry(Reconnecting, 0, FailedConnects(n, code) + rest)
         == Retry(Reconnecting, 0, rest).(used := Retry(Reconnecting, 0, rest).used + n)
  {
    if n > 0 {
      var s := FailedConnects(n, code) + rest;
      assert s[0] == NativeReturn(code, 0);
      assert s[1..] == FailedConnects(n - 1, code) + rest;
      ReconnectSkipsFailures(n - 1, code, rest);
    } else {
      assert FailedConnects(n, code) + rest == rest;
    }
  }

  /** A failed write, any number of failed reconnects, one successful
      reconnect and a successful retry: the write is reported done on the new
      handle, and only the old handle was freed. */
  lemma WriteRecoversAfterReconnect(h: U16, failCode: int, n: nat, newHandle: U16, okWrite: NativeReturn)
    requires failCode != EwOk && okWrite.code == EwOk
    ensures Retry(Writing, h, [NativeReturn(failCode, 0)] + FailedConnects(n, failCode)
                              + [NativeReturn(EwOk, newHandle), okWrite])
         == RetryEnd(true, newHandle, [h, newHandle], [h], n + 3)
  {
    var tail := [NativeReturn(EwOk, newHandle), okWrite];
    var s := [NativeReturn(failCode, 0)] + FailedConnects(n, failCode) + tail;
    assert s[1..] == FailedConnects(n, failCode) + tail;
    ReconnectSkipsFailures(n, failCode, tail);
    assert tail[1..] == [okWrite];
  }

  // ---------------------------------------------------------------------
  // The client

  class FocasClient {
    /** The FOCAS handle; 0 means no connection. */
    var handle: U16
    const ip: string
    const port: int
    var busy: bool
    var dummy: Option<DummyState>

    constructor Init(ip: string, port: int, handle: U16, dummy: Option<DummyState>)
      ensures this.ip == ip && this.port == port && this.handle == handle && this.dummy == dummy
      ensures !busy
    {
      this.ip := ip;
      this.port := port;
      this.handle := handle;
      this.busy := false;
      this.dummy := dummy;
    }

    /** `FocasClient::new`: the address "dummy" gives a connected client
        backed by an empty offset table; any other address asks the library
        for a handle, and a non-zero return code is an error. */
    static method New(ip: string, port: int, timeout: int, alloc: NativeReturn) returns (r: Result<FocasClient, FocasError>)
      ensures ip == "dummy" ==> r.Ok? && r.value.dummy == Some(DummyState(map[], 100, 0)) && r.value.handle == 0
      ensures ip != "dummy" ==> (r.Ok? <==> alloc.code == EwOk)
      ensures ip != "dummy" && r.Ok? ==> r.value.dummy.None? && r.value.handle == alloc.handle
      ensures r.Err? ==> r.error == AllocFailed(alloc.code)
      ensures r.Ok? ==> fresh(r.value) && !r.value.busy && r.value.ip == ip && r.value.port == port
    {
      if ip == "dummy" {
        var c := new FocasClient.Init(ip, port, 0, Some(DummyState(map[], 100, 0)));
        return Ok(c);
      }
      if alloc.code != EwOk {
        return Err(AllocFailed(alloc.code));
      }
      var c := new FocasClient.Init(ip, port, alloc.handle, None);
      r := Ok(c);
    }

    /** `is_connected`: always for a dummy client, otherwise iff a handle is held. */
    predicate IsConnected()
      reads this
    {
      dummy.Some? || handle != 0
    }

    predicate IsBusy()
      reads this
    {
      busy
    }

    /** The guard every operation checks first. */
    predicate Unavailable()
      reads this
    {
      IsBusy() || !IsConnected()
    }

    method SetBusy(b: bool)
      modifies this`busy
      ensures busy == b
    {
      busy := b;
    }

    /** `wrtofs`: write tool offset `number`.  The dummy client stores it;
        a real client writes through the library, and on failure frees its
        handle, reconnects until the library hands out a new one, and tries
        again.  `native` holds the results of the native calls in order;
        the handles written with and the handles freed are returned. */
    method Wrtofs(number: int, ofsType: int, data: int, native: seq<NativeReturn>)
      returns (r: WriteOutcome, writeHandles: seq<U16>, freed: seq<U16>)
      modifies this
      ensures old(Unavailable()) ==>
        r == WriteErr(Busy) && writeHandles == [] && freed == []
        && busy == old(busy) && handle == old(handle) && dummy == old(dummy)
      ensures !old(Unavailable()) && old(dummy).Some? ==>
        r == WriteOk && writeHandles == [] && freed == []
        && dummy == Some(StoreOffset(old(dummy).value, number, data)) && handle == old(handle)
      ensures !old(Unavailable()) && old(dummy).None? ==>
        var e := Retry(Writing, old(handle), native);
        && r == (if e.written then WriteOk else StillRetrying)
        && handle == e.handle && writeHandles == e.writeHandles && freed == e.freed
        && dummy == old(dummy)
      ensures !old(Unavailable()) ==> !busy
    {
      if IsBusy() || !IsConnected() {
        return WriteErr(Busy), [], [];
      }
      if dummy.Some? {
        SetBusy(true);
        dummy := Some(StoreOffset(dummy.value, number, data));
        SetBusy(false);
        return WriteOk, [], [];
      }
      ghost var goal := Retry(Writing, handle, native);
      writeHandles, freed := [], [];
      var i := 0;
      assert native[0..] == native;
      while true
        invariant 0 <= i <= |native| && !busy && dummy == old(dummy)
        invariant goal == Resume(writeHandles, freed, i, Retry(Writing, handle, native[i..]))
        decreases |native| - i
      {
        RetryStep(Writing, handle, native[i..], writeHandles, freed, i);
        if i == |native| {
          return StillRetrying, writeHandles, freed;
        }
        var currentHandle := handle;
        SetBusy(true);
        var ret := native[i].code;
        assert native[i..][1..] == native[i + 1..];
        i := i + 1;
        writeHandles := writeHandles + [currentHandle];
        if ret == EwOk {
          SetBusy(false);
          return WriteOk, writeHandles, freed;
        }
        SetBusy(false);
        freed := freed + [currentHandle];
        handle := 0;
        while true
          invariant 0 < i <= |native| && !busy && handle == 0 && dummy == old(dummy)
          invariant goal == Resume(writeHandles, freed, i, Retry(Reconnecting, 0, native[i..]))
          decreases |native| - i
        {
          RetryStep(Reconnecting, 0, native[i..], writeHandles, freed, i);
          if i == |native| {
            return StillRetrying, writeHandles, freed;
          }
          var conn := native[i];
          assert native[i..][1..] == native[i + 1..];
          i := i + 1;
          if conn.code != EwOk {
            continue;
          }
          handle := conn.handle;
          break;
        }
      }
    }

    /** `rdtofs`: read tool offset `number`; never touches `busy` and never
        reconnects.  `nativeRet`/`nativeTofs` are what `cnc_rdtofs` returns
        and fills in. */
    method Rdtofs(number: int, ofsType: int, nativeRet: int, nativeTofs: Odbtofs) returns (r: Result<Odbtofs, FocasError>)
      ensures Unavailable() ==> r == Err(Busy)
      ensures !Unavailable() && dummy.Some? ==>
        r == Ok(Odbtofs(number, ofsType, StoredOffset(dummy.value, number)))
      ensures !Unavailable() && dummy.None? ==>
        r == if nativeRet == EwOk then Ok(nativeTofs) else Err(NativeFailed(nativeRet))
    {
      if IsBusy() || !IsConnected() {
        return Err(Busy);
      }
      if dummy.Some? {
        return Ok(Odbtofs(number, ofsType, StoredOffset(dummy.value, number)));
      }
      if nativeRet == EwOk {
        r := Ok(nativeTofs);
      } else {
        r := Err(NativeFailed(nativeRet));
      }
    }

    /** `read_life`: the dummy's life counter, or the library's value cast to
        `i16`; `busy` is set around the native call and cleared on either
        outcome. */
    method ReadLife(number: int, nativeRet: int, nativeData: int) returns (r: Result<int, FocasError>)
      modifies this`busy
      ensures busy == old(busy)
      ensures old(Unavailable()) ==> r == Err(Busy)
      ensures !old(Unavailable()) && dummy.Some? ==> r == Ok(dummy.value.life)
      ensures !old(Unavailable()) && dummy.None? ==>
        r == if nativeRet == EwOk then Ok(WrapI16(nativeData)) else Err(NativeFailed(nativeRet))
    {
      if IsBusy() || !IsConnected() {
        return Err(Busy);
      }
      if dummy.Some? {
        return Ok(dummy.value.life);
      }
      SetBusy(true);
      var ret := nativeRet;
      SetBusy(false);
      if ret == EwOk {
        r := Ok(WrapI16(nativeData));
      } else {
        r := Err(NativeFailed(ret));
      }
    }

    /** `read_count`: as `read_life`, for the dummy's count and `cnc_rdcount`. */
    method ReadCount(number: int, nativeRet: int, nativeData: int) returns (r: Result<int, FocasError>)
      modifies this`busy
      ensures busy == old(busy)
      ensures old(Unavailable()) ==> r == Err(Busy)
      ensures !old(Unavailable()) && dummy.Some? ==> r == Ok(dummy.value.count)
      ensures !old(Unavailable()) && dummy.None? ==>
        r == if nativeRet == EwOk then Ok(WrapI16(nativeData)) else Err(NativeFailed(nativeRet))
    {
      if IsBusy() || !IsConnected() {
        return Err(Busy);
      }
      if dummy.Some? {
        return Ok(dummy.value.count);
      }
      SetBusy(true);
      var ret := nativeRet;
      SetBusy(false);
      if ret == EwOk {
        r := Ok(WrapI16(nativeData));
      } else {
        r := Err(NativeFailed(ret));
      }
    }

    /** `Drop`: the handle passed to `cnc_freelibhndl`, if any; a dummy
        client and a client holding no handle free nothing. */
    method Drop() returns (freed: Option<U16>)
      ensures freed.Some? <==> dummy.None? && IsConnected()
      ensures freed.Some? ==> freed.value == handle && freed.value != 0
    {
      if dummy.Some? {
        return None;
      }
      if handle != 0 {
        freed := Some(handle);
      } else {
        freed := None;
      }
    }
  }

  // ---------------------------------------------------------------------
  // What callers can rely on

  /** On the dummy client a write followed by a read of the same offset
      gives back the value written, and the client is free again. */
  method DummyWriteThenRead(client: FocasClient, number: int, data: int) returns (read: Result<Odbtofs, FocasError>)
    requires client.dummy.Some? && !client.busy
    modifies client
    ensures read == Ok(Odbtofs(number, 0, data)) && !client.busy
  {
    var w, _, _ := client.Wrtofs(number, 0, data, []);
    read := client.Rdtofs(number, 0, EwOk, Odbtofs(0, 0, 0));
  }

  /** A busy client refuses every operation and stays busy and unchanged. */
  method BusyClientRefuses(client: FocasClient, number: int, native: seq<NativeReturn>)
    returns (w: WriteOutcome, rd: Result<Odbtofs, FocasError>, life: Result<int, FocasError>)
    requires client.busy
    modifies client
    ensures w == WriteErr(Busy) && rd == Err(Busy) && life == Err(Busy)
    ensures client.busy && client.handle == old(client.handle) && client.dummy == old(client.dummy)
  {
    var writes, freed;
    w, writes, freed := client.Wrtofs(number, 0, 0, native);
    rd := client.Rdtofs(number, 0, EwOk, Odbtofs(0, 0, 0));
    life := client.ReadLife(number, EwOk, 0);
  }
}
