/** The NIF entry points of `src/signal_handler_nif.c` and the bridge handler
    `notify_controller`, as transformers of an abstract process state: the
    operating system's signal actions and the single `controller_pid` slot. */
module Nif {
  import opened Wrappers
  import opened Terms
  import opened Dispositions
  import Catalog
  import Limits

  datatype State = State(os: Os, controller: Pid)

  /** The state at load time: `controller_pid` is a zero-initialised global,
      and there is no "unbound" state distinct from it. */
  function Initial(os: Os): State
  {
    State(os, ZeroPid)
  }

  /** The new state and the reply of one NIF call. */
  datatype Step = Step(state: State, reply: Reply)

  /** A message sent with `enif_send`. */
  datatype Message = Message(to: Pid, payload: Term)

  /** The `{caught, Signum}` tuple the bridge sends. */
  function CaughtPayload(signum: int): Term
    requires IntMin <= signum <= IntMax
  {
    Tuple([Atom("caught"), Int(IntToUInt(signum))])
  }

  /** `notify_controller`: the message it sends when signal `signum` arrives. */
  function NotifyController(st: State, signum: int): (m: Message)
    requires IntMin <= signum <= IntMax
    ensures m.to == st.controller
    ensures m.payload.Tuple? && |m.payload.elems| == 2 && m.payload.elems[0] == Atom("caught")
    ensures 0 <= signum ==> GetUint(m.payload.elems[1]) == Some(signum)
  {
    Message(st.controller, CaughtPayload(signum))
  }

  /** Delivery of signal `signum` by the operating system: the bridge runs,
      and sends its message, exactly when it is the signal's handler; any
      other disposition produces no message. */
  function Raise(st: State, signum: int): (m: Option<Message>)
    requires IntMin <= signum <= IntMax
    ensures m.Some? <==> HandlerState(st.os, signum) == 3
    ensures m.Some? ==> m.value == NotifyController(st, signum)
  {
    if CanQuery(st.os, signum) && st.os.actions[signum] == Bridge then Some(NotifyController(st, signum)) else None
  }

  /** `bind_controller_pid`. */
  function BindControllerPid(st: State, args: seq<Term>): (r: Step)
    ensures r.reply == Badarg <==> |args| != 1 || GetLocalPid(args[0]).None?
    ensures r.reply == Badarg ==> r.state == st
    ensures r.reply != Badarg ==> r.reply == Ok(OkAtom) && r.state == st.(controller := args[0].pid)
  {
    if |args| != 1 then Step(st, Badarg)
    else
      match GetLocalPid(args[0])
      case None => Step(st, Badarg)
      case Some(pid) => Step(st.(controller := pid), Ok(OkAtom))
  }

  /** `register_signal`. */
  function RegisterSignal(st: State, args: seq<Term>): (r: Step)
    ensures r.reply == Badarg <==> |args| != 1 || GetUint(args[0]).None?
    ensures r.reply != Badarg ==> r.reply == Ok(OkAtom)
    ensures r.reply == Badarg ==> r.state == st
    ensures r.reply != Badarg ==> r.state == st.(os := Install(st.os, UIntToInt(args[0].value)))
  {
    if |args| != 1 then Step(st, Badarg)
    else
      match GetUint(args[0])
      case None => Step(st, Badarg)
      case Some(signum) => Step(st.(os := Install(st.os, UIntToInt(signum))), Ok(OkAtom))
  }

  /** `unregister_signal`. */
  function UnregisterSignal(st: State, args: seq<Term>): (r: Step)
    ensures r.reply == Badarg <==> |args| != 1 || GetUint(args[0]).None?
    ensures r.reply != Badarg ==> r.reply == Ok(OkAtom)
    ensures r.reply == Badarg ==> r.state == st
    ensures r.reply != Badarg ==> r.state == st.(os := Remove(st.os, UIntToInt(args[0].value)))
  {
    if |args| != 1 then Step(st, Badarg)
    else
      match GetUint(args[0])
      case None => Step(st, Badarg)
      case Some(signum) => Step(st.(os := Remove(st.os, UIntToInt(signum))), Ok(OkAtom))
  }

  /** A successful `register` leaves the signal in state "registered" and
      changes no other signal's action and not the controller. */
  lemma RegisterInstallsBridge(st: State, signum: nat)
    requires signum <= IntMax && CanChange(st.os, signum)
    ensures RegisterSignal(st, [Int(signum)]).reply == Ok(OkAtom)
    ensures HandlerState(RegisterSignal(st, [Int(signum)]).state.os, signum) == 3
    ensures Descriptions[HandlerState(RegisterSignal(st, [Int(signum)]).state.os, signum)] == "registered"
    ensures RegisterSignal(st, [Int(signum)]).state.controller == st.controller
    ensures forall n :: n != signum ==> HandlerState(RegisterSignal(st, [Int(signum)]).state.os, n) == HandlerState(st.os, n)
  {
  }

  /** A successful `unregister` leaves the signal in state "default", whatever
      it was before, and changes nothing else. */
  lemma UnregisterRestoresDefault(st: State, signum: nat)
    requires signum <= IntMax && CanChange(st.os, signum)
    ensures UnregisterSignal(st, [Int(signum)]).reply == Ok(OkAtom)
    ensures HandlerState(UnregisterSignal(st, [Int(signum)]).state.os, signum) == 0
    ensures UnregisterSignal(st, [Int(signum)]).state.controller == st.controller
    ensures forall n :: n != signum ==> HandlerState(UnregisterSignal(st, [Int(signum)]).state.os, n) == HandlerState(st.os, n)
  {
  }

  /** The operating system refusing the change is not reported: the reply is
      still `ok`, and nothing changes. */
  lemma RefusalIsNotReported(st: State, signum: nat)
    requires signum <= IntMax && !CanChange(st.os, signum)
    ensures RegisterSignal(st, [Int(signum)]) == Step(st, Ok(OkAtom))
    ensures UnregisterSignal(st, [Int(signum)]) == Step(st, Ok(OkAtom))
  {
  }

  /** Binding twice replaces the first pid: a signal caught afterwards is sent
      to the second pid only. */
  lemma RebindRetargets(st: State, a: Pid, b: Pid, signum: nat)
    requires signum <= IntMax
    requires HandlerState(st.os, signum) == 3
    ensures var s1 := BindControllerPid(st, [PidTerm(a, true)]).state;
            var s2 := BindControllerPid(s1, [PidTerm(b, true)]).state;
            Raise(s2, signum) == Some(Message(b, Tuple([Atom("caught"), Int(signum)])))
  {
  }

  /** Bind, register signal `signum`, raise it: exactly one `{caught, signum}`
      message reaches the bound pid.  Unregister and raise again: no message. */
  lemma CatchThenRelease(os: Os, c: Pid, signum: nat)
    requires signum <= IntMax && CanChange(os, signum)
    ensures var s1 := BindControllerPid(Initial(os), [PidTerm(c, true)]).state;
            var s2 := RegisterSignal(s1, [Int(signum)]).state;
            var s3 := UnregisterSignal(s2, [Int(signum)]).state;
            && Raise(s2, signum) == Some(Message(c, Tuple([Atom("caught"), Int(signum)])))
            && Raise(s3, signum) == None
            && HandlerState(s3.os, signum) == 0
  {
  }

  /** `enif_make_reverse_list`. */
  function Reverse<T>(s: seq<T>): seq<T>
  {
    seq(|s|, k requires 0 <= k < |s| => s[|s| - 1 - k])
  }

  /** The `{Num, Name}` tuple of one catalog row. */
  function EntryTerm(e: Catalog.Entry): Term
  {
    Tuple([Int(e.num), Atom(e.name)])
  }

  /** `get_signal_table`: one `{Num, Name}` tuple per row of the catalog,
      prepended in turn and then reversed, so that the list follows table
      order and has `NUMNAME_ENTRIES` elements, the sentinel last. */
  method GetSignalTable(p: Catalog.Signals, args: seq<Term>) returns (r: Reply)
    ensures |args| != 0 ==> r == Badarg
    ensures |args| == 0 ==> r.Ok? && r.term.List?
    ensures |args| == 0 ==> |r.term.elems| == |Catalog.Table(p)| == |p| + 1
    ensures |args| == 0 ==> forall i :: 0 <= i < |Catalog.Table(p)| ==> r.term.elems[i] == EntryTerm(Catalog.Table(p)[i])
    ensures |args| == 0 ==> r.term.elems[|p|] == Tuple([Int(0), Atom("EXIT")])
  {
    if |args| != 0 {
      return Badarg;
    }
    var table := Catalog.Table(p);
    var list: seq<Term> := [];
    var i := 0;
    while i < |table|
      invariant 0 <= i <= |table|
      invariant |list| == i
      invariant forall k :: 0 <= k < i ==> list[k] == EntryTerm(table[i - 1 - k])
    {
      list := [EntryTerm(table[i])] + list;
      i := i + 1;
    }
    r := Ok(List(Reverse(list)));
  }

  /** The `{Signum, Description}` tuple for one signal number. */
  function StateTerm(os: Os, signum: int): Term
  {
    Tuple([Int(signum), Atom(Descriptions[HandlerState(os, signum)])])
  }

  /** `get_signal_states`: one tuple per number in `[0, SIGNUM_BOUND)`, in
      increasing order, each carrying the description of that number's state.
      States come from the corrected classifier: where the query succeeds they
      are the code's, and a number the query rejects is reported "default". */
  method GetSignalStates(st: State, c: Limits.Config, args: seq<Term>) returns (r: Reply)
    ensures |args| != 0 ==> r == Badarg
    ensures |args| == 0 ==> r.Ok? && r.term.List?
    ensures |args| == 0 ==> |r.term.elems| == if Limits.SignumBound(c) < 0 then 0 else Limits.SignumBound(c)
    ensures |args| == 0 ==> forall i :: 0 <= i < |r.term.elems| ==> r.term.elems[i] == StateTerm(st.os, i)
    ensures |args| == 0 ==> forall i, stale :: 0 <= i < |r.term.elems| && CanQuery(st.os, i) ==>
              r.term.elems[i] == Tuple([Int(i), Atom(Descriptions[HandlerStateAsWritten(st.os, i, stale)])])
  {
    if |args| != 0 {
      return Badarg;
    }
    var bound := Limits.SignumBound(c);
    var list: seq<Term> := [];
    var i := 0;
    while i < bound
      invariant 0 <= i && (bound < 0 ==> i == 0) && (0 <= bound ==> i <= bound)
      invariant |list| == i
      invariant forall k :: 0 <= k < i ==> list[k] == StateTerm(st.os, i - 1 - k)
    {
      list := [StateTerm(st.os, i)] + list;
      i := i + 1;
    }
    r := Ok(List(Reverse(list)));
  }

  /** `get_signal_code_limits`: `{SIGNUM_BOUND, SIGRTMIN, SIGRTMAX}`. */
  function GetSignalCodeLimits(c: Limits.Config, args: seq<Term>): (r: Reply)
    ensures |args| != 0 <==> r == Badarg
    ensures |args| == 0 ==> r.term == Tuple([Int(Limits.SignumBound(c)), Int(Limits.RealTimeRange(c).min), Int(Limits.RealTimeRange(c).max)])
    ensures |args| == 0 && (c.rtMin.None? || c.rtMax.None?) ==> r.term.elems[2].value < r.term.elems[1].value
  {
    if |args| != 0 then Badarg
    else
      var rt := Limits.RealTimeRange(c);
      Ok(Tuple([Int(Limits.SignumBound(c)), Int(rt.min), Int(rt.max)]))
  }
}
