/** The signal catalog: `numname_table` of `src/sig2str.h`.

    The table is built by conditional inclusion: a master-list entry becomes a
    row only when the platform's <signal.h> defines the signal, and the rows
    keep master-list order.  A fixed `{ 0, "EXIT" }` row always ends the table.
    Lookups by number and by name are first-match scans over the rows, so when
    two names share a number the one listed first (the preferred one) wins.
 */
module Catalog {
  import opened Wrappers
  import opened SignalNames

  /** A row of the table: `struct numname { int num; char const name[8]; }`. */
  datatype Entry = Entry(num: int, name: string)

  /** The platform's signal set: `s in p` exactly when `SIG<Name(s)>` is
      defined, and `p[s]` is that macro's value. */
  type Signals = map<Sig, int>

  /** The sentinel that always ends the table. */
  const Exit: Entry := Entry(0, "EXIT")

  /** The row that `NUMNAME (...)` produces for a defined signal. */
  function Row(p: Signals, s: Sig): Entry
    requires s in p
  {
    Entry(p[s], Name(s))
  }

  /** The rows contributed by the master-list entries before position `k`. */
  function Rows(p: Signals, k: nat): seq<Entry>
    requires k <= MasterCount
  {
    if k == 0 then []
    else
      var s := (k - 1) as Sig;
      Rows(p, k - 1) + (if s in p then [Row(p, s)] else [])
  }

  /** The defined signals listed before position `k`. */
  ghost function DefinedBefore(p: Signals, k: int): set<Sig>
  {
    set s | s in p && (s as int) < k
  }

  lemma {:induction false} RowsCount(p: Signals, k: nat)
    requires k <= MasterCount
    ensures |Rows(p, k)| == |DefinedBefore(p, k)|
  {
    if k > 0 {
      RowsCount(p, k - 1);
      var s := (k - 1) as Sig;
      if s in p {
        assert DefinedBefore(p, k) == DefinedBefore(p, k - 1) + {s};
      } else {
        assert DefinedBefore(p, k) == DefinedBefore(p, k - 1);
      }
    } else {
      assert DefinedBefore(p, k) == {};
    }
  }

  /** `numname_table`.  Its length, `NUMNAME_ENTRIES`, is one more than the
      number of signals the platform defines, and its last row is the sentinel. */
  function Table(p: Signals): (t: seq<Entry>)
    ensures |t| == |p| + 1
    ensures t[|t| - 1] == Exit
  {
    RowsCount(p, MasterCount);
    assert DefinedBefore(p, MasterCount) == p.Keys;
    Rows(p, MasterCount) + [Exit]
  }

  /** Where the row of `s` sits: the number of defined signals listed before it. */
  function Slot(p: Signals, s: Sig): nat
  {
    |Rows(p, s as nat)|
  }

  lemma {:induction false} RowsPrefix(p: Signals, k: nat, m: nat)
    requires k <= m <= MasterCount
    ensures |Rows(p, k)| <= |Rows(p, m)|
    ensures Rows(p, k) == Rows(p, m)[..|Rows(p, k)|]
    decreases m - k
  {
    if k < m {
      RowsPrefix(p, k, m - 1);
      assert Rows(p, m)[..|Rows(p, m - 1)|] == Rows(p, m - 1);
    }
  }

  /** A defined signal's row sits at its slot, before the sentinel. */
  lemma RowAtSlot(p: Signals, s: Sig)
    requires s in p
    ensures Slot(p, s) < |Table(p)| - 1
    ensures Table(p)[Slot(p, s)] == Row(p, s)
  {
    var k := s as nat;
    RowsPrefix(p, k + 1, MasterCount);
    assert Rows(p, k + 1) == Rows(p, k) + [Row(p, s)];
  }

  /** Slots follow master-list order. */
  lemma SlotOrder(p: Signals, a: Sig, b: Sig)
    requires a in p && a < b
    ensures Slot(p, a) < Slot(p, b)
  {
    RowsPrefix(p, a as nat + 1, b as nat);
    assert Rows(p, a as nat + 1) == Rows(p, a as nat) + [Row(p, a)];
  }

  lemma {:induction false} RowsOrigin(p: Signals, k: nat, i: nat) returns (s: Sig)
    requires k <= MasterCount && i < |Rows(p, k)|
    ensures s in p && (s as int) < k
    ensures Slot(p, s) == i && Rows(p, k)[i] == Row(p, s)
  {
    var last := (k - 1) as Sig;
    if i < |Rows(p, k - 1)| {
      s := RowsOrigin(p, k - 1, i);
    } else {
      s := last;
    }
  }

  /** Every row before the sentinel comes from a defined signal, at that signal's slot. */
  lemma RowOrigin(p: Signals, i: nat) returns (s: Sig)
    requires i < |Table(p)| - 1
    ensures s in p && Slot(p, s) == i && Table(p)[i] == Row(p, s)
  {
    s := RowsOrigin(p, MasterCount, i);
  }

  /** The table is the master list filtered by the platform, part 1: every
      defined signal has a row, at its slot, before the sentinel. */
  lemma DefinedSignalsHaveRows(p: Signals)
    ensures forall s :: s in p ==> Slot(p, s) < |Table(p)| - 1 && Table(p)[Slot(p, s)] == Row(p, s)
  {
    forall s | s in p
      ensures Slot(p, s) < |Table(p)| - 1 && Table(p)[Slot(p, s)] == Row(p, s)
    {
      RowAtSlot(p, s);
    }
  }

  /** Part 2: rows keep master-list order. */
  lemma RowsKeepMasterOrder(p: Signals)
    ensures forall a, b :: a in p && b in p && a < b ==> Slot(p, a) < Slot(p, b)
  {
    forall a, b | a in p && b in p && a < b
      ensures Slot(p, a) < Slot(p, b)
    {
      SlotOrder(p, a, b);
    }
  }

  /** The rows of the defined signals. */
  ghost function DefinedRows(p: Signals): set<Entry>
  {
    set s | s in p :: Row(p, s)
  }

  /** Part 3: every row but the sentinel is the row of a defined signal. */
  lemma RowsBelongToDefinedSignals(p: Signals)
    ensures forall i :: 0 <= i < |Table(p)| - 1 ==> Table(p)[i] in DefinedRows(p)
  {
    var t := Table(p);
    forall i | 0 <= i < |t| - 1
      ensures t[i] in DefinedRows(p)
    {
      var s := RowOrigin(p, i);
    }
  }

  /** A name has a row exactly when the platform defines its signal. */
  lemma PresentIffDefined(p: Signals, s: Sig)
    ensures (exists i :: 0 <= i < |Table(p)| && Table(p)[i].name == Name(s)) <==> s in p
  {
    if s in p {
      RowAtSlot(p, s);
    }
    var t := Table(p);
    forall i | 0 <= i < |t| && t[i].name == Name(s)
      ensures s in p
    {
      NamesValid(s);
      if i < |t| - 1 {
        var r := RowOrigin(p, i);
        NameInjective(r, s);
      }
    }
  }

  /** Every name in the table fits the `name` field; no name occurs twice. */
  lemma TableNamesWellFormed(p: Signals)
    ensures forall i :: 0 <= i < |Table(p)| ==> ValidName(Table(p)[i].name)
    ensures forall i, j :: 0 <= i < j < |Table(p)| ==> Table(p)[i].name != Table(p)[j].name
  {
    var t := Table(p);
    forall i | 0 <= i < |t|
      ensures ValidName(t[i].name)
    {
      if i < |t| - 1 {
        var s := RowOrigin(p, i);
        NamesValid(s);
      } else {
        assert t[i].name == "EXIT";
      }
    }
    forall i, j | 0 <= i < j < |t|
      ensures t[i].name != t[j].name
    {
      var a := RowOrigin(p, i);
      NamesValid(a);
      if j < |t| - 1 {
        var b := RowOrigin(p, j);
        NameInjective(a, b);
      }
    }
  }

  /** What a lookup searches for: a row's number (`sig2str`) or its name
      (`str2sig`). */
  datatype Key = ByNumber(num: int) | ByName(name: string)

  predicate Matches(e: Entry, k: Key)
  {
    match k
    case ByNumber(num) => e.num == num
    case ByName(name) => e.name == name
  }

  /** Index of the first row matching `k`: the scan both lookups perform. */
  function Find(t: seq<Entry>, k: Key): (r: Option<nat>)
    ensures r.Some? ==> r.value < |t| && Matches(t[r.value], k)
    ensures forall j :: 0 <= j < |t| && (r.None? || j < r.value) ==> !Matches(t[j], k)
  {
    if |t| == 0 then None
    else if Matches(t[0], k) then Some(0)
    else
      match Find(t[1..], k)
      case None => None
      case Some(i) => Some(i + 1)
  }

  /** The name a first-match lookup by number reports. */
  function NameOf(t: seq<Entry>, num: int): Option<string>
  {
    match Find(t, ByNumber(num))
    case None => None
    case Some(i) => Some(t[i].name)
  }

  /** The number a first-match lookup by name reports. */
  function NumberOf(t: seq<Entry>, name: string): Option<int>
  {
    match Find(t, ByName(name))
    case None => None
    case Some(i) => Some(t[i].num)
  }

  /** `s` is defined and no defined signal listed before it has the same number. */
  ghost predicate Preferred(p: Signals, s: Sig)
  {
    s in p && forall a :: a in p && a < s ==> p[a] != p[s]
  }

  /** Lookup by number reports the name of `s` exactly when `s` is the first
      defined signal, in master-list order, with that number. */
  lemma LookupByNumber(p: Signals, num: int, s: Sig)
    ensures NameOf(Table(p), num) == Some(Name(s)) <==> s in p && p[s] == num && Preferred(p, s)
  {
    var t := Table(p);
    var r := Find(t, ByNumber(num));
    if s in p && p[s] == num && Preferred(p, s) {
      RowAtSlot(p, s);
      var k := Slot(p, s);
      forall j | 0 <= j < k
        ensures t[j].num != num
      {
        var a := RowOrigin(p, j);
        if a > s {
          SlotOrder(p, s, a);
        }
      }
      assert r == Some(k);
    }
    if NameOf(t, num) == Some(Name(s)) {
      NamesValid(s);
      var a := RowOrigin(p, r.value);
      NameInjective(a, s);
      forall b | b in p && b < s
        ensures p[b] != p[s]
      {
        SlotOrder(p, b, s);
        RowAtSlot(p, b);
      }
    }
  }

  /** Lookup by number reports "EXIT" exactly when no defined signal is numbered 0. */
  lemma SentinelByNumber(p: Signals)
    ensures NameOf(Table(p), 0) == Some("EXIT") <==> forall s :: s in p ==> p[s] != 0
  {
    var t := Table(p);
    var r := Find(t, ByNumber(0));
    if forall s :: s in p ==> p[s] != 0 {
      forall j | 0 <= j < |t| - 1
        ensures t[j].num != 0
      {
        var a := RowOrigin(p, j);
      }
      assert r == Some(|t| - 1);
    }
    if NameOf(t, 0) == Some("EXIT") {
      TableNamesWellFormed(p);
      assert r.value == |t| - 1;
      forall s | s in p
        ensures p[s] != 0
      {
        RowAtSlot(p, s);
        NamesValid(s);
      }
    }
  }

  /** Lookup by name finds a signal's number exactly when the platform defines it. */
  lemma LookupByName(p: Signals, s: Sig)
    ensures NumberOf(Table(p), Name(s)) == (if s in p then Some(p[s]) else None)
  {
    var t := Table(p);
    TableNamesWellFormed(p);
    PresentIffDefined(p, s);
    var r := Find(t, ByName(Name(s)));
    if s in p {
      RowAtSlot(p, s);
      assert r == Some(Slot(p, s));
    } else {
      assert r == None;
    }
  }

  /** The sentinel's name always resolves to 0. */
  lemma SentinelByName(p: Signals)
    ensures NumberOf(Table(p), "EXIT") == Some(0)
  {
    var t := Table(p);
    TableNamesWellFormed(p);
    assert Find(t, ByName("EXIT")) == Some(|t| - 1);
  }

  /** Resolving a number to its name and that name back gives the number. */
  lemma NumberRoundTrip(p: Signals, num: int)
    ensures NameOf(Table(p), num).Some? ==> NumberOf(Table(p), NameOf(Table(p), num).value) == Some(num)
  {
    var t := Table(p);
    TableNamesWellFormed(p);
    var r := Find(t, ByNumber(num));
    if r.Some? {
      assert Find(t, ByName(t[r.value].name)) == Some(r.value);
    }
  }

  /** Resolving a defined signal's name to its number and back gives the name
      exactly when that name is the preferred one for its number. */
  lemma NameRoundTrip(p: Signals, s: Sig)
    requires s in p
    ensures NumberOf(Table(p), Name(s)) == Some(p[s])
    ensures NameOf(Table(p), p[s]) == Some(Name(s)) <==> Preferred(p, s)
  {
    LookupByName(p, s);
    LookupByNumber(p, p[s], s);
  }

  /** The (preferred, alias) pairs that the master list orders preferred-first. */
  const AliasPairs: seq<(Sig, Sig)> := [(SEGV, BUS), (ABRT, IOT), (CHLD, CLD), (GRANT, KAP), (WINCH, WINDOW)]

  /** On a platform where an alias shares its preferred name's number, the
      preferred name's row comes first, lookup by that number never reports
      the alias, and it reports the preferred name whenever nothing listed
      earlier has the number too (SEGV when SEGV == BUS). */
  lemma AliasesResolveToPreferred(p: Signals, k: nat)
    requires k < |AliasPairs|
    requires AliasPairs[k].0 in p && AliasPairs[k].1 in p
    requires p[AliasPairs[k].0] == p[AliasPairs[k].1]
    ensures Slot(p, AliasPairs[k].0) < Slot(p, AliasPairs[k].1)
    ensures NameOf(Table(p), p[AliasPairs[k].1]) != Some(Name(AliasPairs[k].1))
    ensures Preferred(p, AliasPairs[k].0) ==> NameOf(Table(p), p[AliasPairs[k].1]) == Some(Name(AliasPairs[k].0))
  {
    var (preferred, alias) := AliasPairs[k];
    assert preferred < alias;
    SlotOrder(p, preferred, alias);
    LookupByNumber(p, p[alias], alias);
    LookupByNumber(p, p[alias], preferred);
  }
}
