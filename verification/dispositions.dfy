/** Signal dispositions: `handler_state`, `install_handler` and
    `remove_handler` of `src/signal_handler_nif.c`, over an abstract table of
    signal actions in place of the operating system's. */
module Dispositions {

  /** The handler a signal's action names: `SIG_DFL`, `SIG_IGN`, the bridge's
      own `notify_controller`, or some other function (the Erlang runtime's,
      for one), compared by identity. */
  datatype Handler = Default | Ignore | Bridge | Other(id: nat)

  /** The operating system's side.  `actions` holds the current handler of
      every signal number `sigaction` accepts; `fixed` holds the accepted
      numbers whose action cannot be changed (SIGKILL and SIGSTOP). */
  datatype Os = Os(actions: map<int, Handler>, fixed: set<int>)

  /** `sigaction(signum, NULL, &old)` succeeds. */
  predicate CanQuery(os: Os, signum: int)
  {
    signum in os.actions
  }

  /** `sigaction(signum, &new, NULL)` succeeds. */
  predicate CanChange(os: Os, signum: int)
  {
    signum in os.actions && signum !in os.fixed
  }

  /** `handler_state_descriptions`, indexed by state code. */
  const Descriptions: seq<string> := ["default", "ignore", "erts", "registered"]

  /** The comparisons of `handler_state`, in its order: `SIG_DFL` is 0,
      `SIG_IGN` is 1, `notify_controller` is 3, anything else is 2. */
  function Classify(h: Handler): nat
  {
    if h == Default then 0
    else if h == Ignore then 1
    else if h == Bridge then 3
    else 2
  }

  /** Each state code names exactly one kind of handler, and every code is a
      valid index of `handler_state_descriptions`. */
  lemma ClassifyIsExact(h: Handler)
    ensures Classify(h) < |Descriptions|
    ensures Classify(h) == 0 <==> h == Default
    ensures Classify(h) == 1 <==> h == Ignore
    ensures Classify(h) == 2 <==> h.Other?
    ensures Classify(h) == 3 <==> h == Bridge
  {
  }

  /** The four descriptions are distinct, so a description identifies its code. */
  lemma DescriptionsDistinct()
    ensures forall i, j :: 0 <= i < j < |Descriptions| ==> Descriptions[i] != Descriptions[j]
  {
  }

  /** `handler_state` as written: it ignores the result of `sigaction`, so for
      a number the query rejects it classifies whatever `old_action` held
      before the call, here `stale`. */
  function HandlerStateAsWritten(os: Os, signum: int, stale: Handler): nat
  {
    Classify(if signum in os.actions then os.actions[signum] else stale)
  }

  /** `handler_state` with the query's failure taken into account: a number
      the query rejects has no handler and is reported as "default". */
  function HandlerState(os: Os, signum: int): (code: nat)
    ensures code < |Descriptions|
    ensures code == 3 <==> CanQuery(os, signum) && os.actions[signum] == Bridge
    ensures code == 0 <==> !CanQuery(os, signum) || os.actions[signum] == Default
  {
    if CanQuery(os, signum) then Classify(os.actions[signum]) else 0
  }

  /** As written, the state reported for a number the query rejects depends on
      uninitialised memory: two stale values give two different answers.
      Signal 0 is such a number, and `get_signal_states` always asks for it. */
  lemma StaleStateIsUnspecified(os: Os, signum: int)
    requires !CanQuery(os, signum)
    ensures HandlerStateAsWritten(os, signum, Default) == 0
    ensures HandlerStateAsWritten(os, signum, Ignore) == 1
  {
  }

  /** Where the query succeeds, the corrected classifier agrees with the code
      as written, whatever the stale value. */
  lemma HandlerStateAgreesWhenQueryable(os: Os, signum: int, stale: Handler)
    requires CanQuery(os, signum)
    ensures HandlerState(os, signum) == HandlerStateAsWritten(os, signum, stale)
  {
  }

  /** Replace the action of `signum` with `h`, if the system allows it. */
  function SetAction(os: Os, signum: int, h: Handler): (r: Os)
    ensures CanChange(os, signum) ==> CanQuery(r, signum) && r.actions[signum] == h
    ensures !CanChange(os, signum) ==> r == os
    ensures r.fixed == os.fixed && r.actions.Keys == os.actions.Keys
    ensures forall n :: n in os.actions && n != signum ==> r.actions[n] == os.actions[n]
  {
    if CanChange(os, signum) then os.(actions := os.actions[signum := h]) else os
  }

  /** `install_handler`: point the action at `notify_controller`, with an
      empty mask and no flags.  The result of `sigaction` is not checked. */
  function Install(os: Os, signum: int): (r: Os)
    ensures CanChange(os, signum) ==> HandlerState(r, signum) == 3
    ensures !CanChange(os, signum) ==> r == os
    ensures r.fixed == os.fixed && r.actions.Keys == os.actions.Keys
    ensures forall n :: n in os.actions && n != signum ==> r.actions[n] == os.actions[n]
  {
    SetAction(os, signum, Bridge)
  }

  /** `remove_handler`: point the action back at `SIG_DFL`, with an empty mask
      and no flags.  The result of `sigaction` is not checked. */
  function Remove(os: Os, signum: int): (r: Os)
    ensures CanChange(os, signum) ==> HandlerState(r, signum) == 0
    ensures !CanChange(os, signum) ==> r == os
    ensures r.fixed == os.fixed && r.actions.Keys == os.actions.Keys
    ensures forall n :: n in os.actions && n != signum ==> r.actions[n] == os.actions[n]
  {
    SetAction(os, signum, Default)
  }

  /** Installing twice leaves the same system as installing once. */
  lemma InstallIdempotent(os: Os, signum: int)
    ensures Install(Install(os, signum), signum) == Install(os, signum)
  {
  }

  /** Removing after installing gives the default action, not the handler that
      was there before the install (ignore, or another function): nothing is
      saved and nothing is restored. */
  lemma RemoveDoesNotRestore(os: Os, signum: int)
    requires CanChange(os, signum)
    ensures Remove(Install(os, signum), signum).actions[signum] == Default
    ensures Remove(Install(os, signum), signum) == Remove(os, signum)
    ensures os.actions[signum] != Default ==> Remove(Install(os, signum), signum) != os
  {
  }

  /** Changes to different signals do not interfere: they commute. */
  lemma ChangesToDistinctSignalsCommute(os: Os, a: int, b: int)
    requires a != b
    ensures Install(Remove(os, b), a) == Remove(Install(os, a), b)
    ensures Install(Install(os, b), a) == Install(Install(os, a), b)
    ensures Remove(Remove(os, b), a) == Remove(Remove(os, a), b)
  {
  }
}
