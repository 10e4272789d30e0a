/** The `IO<T>` newtype of src-tauri/src/io.rs: a wrapper whose only job is
    to mark a value as coming from, or going to, the outside world.  All its
    synchronous operations wrap, unwrap, or apply a function to the inner
    value, so they are modelled as functions over a one-field datatype. */
module Io {
  import opened RustTypes

  datatype IO<T> = IO(inner: T)

  function New<T>(inner: T): IO<T>
  {
    IO(inner)
  }

  function Raw<T>(io: IO<T>): T
  {
    io.inner
  }

  /** `IO::init(f)`: run the producer and wrap what it returns. */
  function Init<U>(f: () -> U): IO<U>
  {
    IO(f())
  }

  /** `IO::init_and_then(f)`: wrap an `Ok` of the producer, pass an `Err` on. */
  function InitAndThen<U, E>(f: () -> Result<U, E>): (r: Result<IO<U>, E>)
    ensures f().Ok? <==> r.Ok?
    ensures r.Ok? ==> Raw(r.value) == f().value
    ensures r.Err? ==> r.error == f().error
  {
    match f()
    case Ok(u) => Ok(New(u))
    case Err(e) => Err(e)
  }

  function Map<T, U>(io: IO<T>, f: T -> U): IO<U>
  {
    IO(f(io.inner))
  }

  /** `and_then`: like `InitAndThen`, with the inner value as the argument. */
  function AndThen<T, U, E>(io: IO<T>, f: T -> Result<U, E>): (r: Result<IO<U>, E>)
    ensures f(Raw(io)).Ok? <==> r.Ok?
    ensures r.Ok? ==> Raw(r.value) == f(Raw(io)).value
    ensures r.Err? ==> r.error == f(Raw(io)).error
  {
    match f(io.inner)
    case Ok(u) => Ok(New(u))
    case Err(e) => Err(e)
  }

  function FlatMap<T, U>(io: IO<T>, f: T -> IO<U>): IO<U>
  {
    f(io.inner)
  }

  /** `consume_and_then`: hand the inner value to `f` and return its result. */
  function ConsumeAndThen<T, E>(io: IO<T>, f: T -> Result<(), E>): Result<(), E>
  {
    f(io.inner)
  }

  /** `as_ref`: a borrow of the inner value.  Values have no identity here,
      so the borrow is the value itself. */
  function AsRef<T>(io: IO<T>): IO<T>
  {
    IO(io.inner)
  }

  function Clone<T>(io: IO<T>): IO<T>
  {
    IO(io.inner)
  }

  function Unzip2<A, B>(io: IO<(A, B)>): (IO<A>, IO<B>)
  {
    (IO(io.inner.0), IO(io.inner.1))
  }

  function Join2<A, B>(ios: (IO<A>, IO<B>)): IO<(A, B)>
  {
    IO((ios.0.inner, ios.1.inner))
  }

  function Unzip3<A, B, C>(io: IO<(A, B, C)>): (IO<A>, IO<B>, IO<C>)
  {
    (IO(io.inner.0), IO(io.inner.1), IO(io.inner.2))
  }

  function Join3<A, B, C>(ios: (IO<A>, IO<B>, IO<C>)): IO<(A, B, C)>
  {
    IO((ios.0.inner, ios.1.inner, ios.2.inner))
  }

  // ---------------------------------------------------------------------
  // The wrapper algebra

  lemma RawNew<T>(x: T)
    ensures Raw(New(x)) == x
    ensures New(Raw(IO(x))) == IO(x)
  {
  }

  lemma InitIsNew<U>(f: () -> U)
    ensures Init(f) == New(f())
  {
  }

  lemma MapRaw<T, U>(io: IO<T>, f: T -> U)
    ensures Raw(Map(io, f)) == f(Raw(io))
  {
  }

  lemma MapIdentity<T>(io: IO<T>)
    ensures Map(io, x => x) == io
  {
  }

  lemma MapCompose<T, U, V>(io: IO<T>, f: T -> U, g: U -> V)
    ensures Map(Map(io, f), g) == Map(io, x => g(f(x)))
  {
  }

  lemma FlatMapRaw<T, U>(io: IO<T>, f: T -> IO<U>)
    ensures FlatMap(io, f) == f(Raw(io))
  {
  }

  /** `flat_map(IO::new)` gives back an IO holding the same value. */
  lemma FlatMapNew<T>(io: IO<T>)
    ensures FlatMap(io, x => New(x)) == io
  {
  }

  /** `flat_map` of a wrapped function is `map`. */
  lemma FlatMapOfNewIsMap<T, U>(io: IO<T>, f: T -> U)
    ensures FlatMap(io, x => New(f(x))) == Map(io, f)
  {
  }

  lemma ConsumeAndThenRaw<T, E>(io: IO<T>, f: T -> Result<(), E>)
    ensures ConsumeAndThen(io, f) == f(Raw(io))
  {
  }

  lemma AsRefAndCloneKeepInner<T>(io: IO<T>)
    ensures Raw(AsRef(io)) == Raw(io)
    ensures Clone(io) == io
  {
  }

  lemma Unzip2Components<A, B>(a: A, b: B)
    ensures Unzip2(New((a, b))) == (New(a), New(b))
  {
  }

  lemma JoinUnzip2<A, B>(io: IO<(A, B)>)
    ensures Join2(Unzip2(io)) == io
  {
  }

  lemma UnzipJoin2<A, B>(ios: (IO<A>, IO<B>))
    ensures Unzip2(Join2(ios)) == ios
  {
  }

  lemma JoinUnzip3<A, B, C>(io: IO<(A, B, C)>)
    ensures Join3(Unzip3(io)) == io
    ensures Unzip3(io) == (New(io.inner.0), New(io.inner.1), New(io.inner.2))
  {
  }

  lemma UnzipJoin3<A, B, C>(ios: (IO<A>, IO<B>, IO<C>))
    ensures Unzip3(Join3(ios)) == ios
  {
  }
}
