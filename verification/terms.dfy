/** The Erlang terms the NIF entry points inspect and build, and the C integer
    conversions applied to them.  Term construction, `enif_get_uint` and
    `enif_get_local_pid` are calls into the host runtime; only their outcome is
    modelled here. */
module Terms {
  import opened Wrappers

  /** A local process identifier (`ErlNifPid`), opaque to this model. */
  datatype Pid = Pid(id: nat)

  /** The value of the zero-initialised `controller_pid` global before any bind. */
  const ZeroPid: Pid := Pid(0)

  datatype Term =
    | Int(value: int)
    | Atom(name: string)
    | Tuple(elems: seq<Term>)
    | List(elems: seq<Term>)
    | PidTerm(pid: Pid, local: bool)

  /** What a NIF call returns: a term, or the `badarg` exception. */
  datatype Reply = Ok(term: Term) | Badarg

  const OkAtom: Term := Atom("ok")

  const UIntMax: int := 0xFFFF_FFFF
  const IntMin: int := -0x8000_0000
  const IntMax: int := 0x7FFF_FFFF

  /** `enif_get_uint`: succeeds on an integer term that an `unsigned int` can hold. */
  function GetUint(t: Term): Option<nat>
  {
    if t.Int? && 0 <= t.value <= UIntMax then Some(t.value) else None
  }

  /** `enif_get_local_pid`: succeeds on a pid of the local node. */
  function GetLocalPid(t: Term): Option<Pid>
  {
    if t.PidTerm? && t.local then Some(t.pid) else None
  }

  /** The `unsigned int` to `int` conversion at a call such as
      `install_handler(signum)`: two's-complement wrap-around. */
  function UIntToInt(u: nat): (i: int)
    requires u <= UIntMax
    ensures IntMin <= i <= IntMax
    ensures (u - i) % 0x1_0000_0000 == 0
  {
    if u <= IntMax then u else u - 0x1_0000_0000
  }

  /** The `int` to `unsigned int` conversion at `enif_make_uint(env, signum)`. */
  function IntToUInt(i: int): (u: nat)
    requires IntMin <= i <= IntMax
    ensures u <= UIntMax
    ensures (u - i) % 0x1_0000_0000 == 0
    ensures 0 <= i ==> u == i
  {
    i % 0x1_0000_0000
  }

  /** The two conversions are inverse on the `int` range. */
  lemma IntConversionsRoundTrip(i: int)
    requires IntMin <= i <= IntMax
    ensures UIntToInt(IntToUInt(i)) == i
  {
  }
}
