/** The master list of signal names behind the signal catalog.

    A `Sig` is a position in the master list: one position per `NUMNAME (...)`
    line, in list order, with a named constant for each.  The preferred spelling
    of a number comes before its historical aliases (SEGV before BUS, ABRT
    before IOT, CHLD before CLD, GRANT before KAP, WINCH before WINDOW).
    Whether a platform defines a signal, and with which number, is not part of
    this module; see `Catalog`.
 */
module SignalNames {

  /** Number of entries in the master list (the `{ 0, "EXIT" }` sentinel excluded). */
  const MasterCount: nat := 58

  /** Capacity of the `name` field of a table row, terminator included. */
  const NameCapacity: nat := 8

  newtype Sig = k: int | 0 <= k < 58

  // POSIX 1003.1-2001 base
  const HUP: Sig := 0
  const INT: Sig := 1
  const QUIT: Sig := 2
  const ILL: Sig := 3
  const TRAP: Sig := 4
  const ABRT: Sig := 5
  const FPE: Sig := 6
  const KILL: Sig := 7
  const SEGV: Sig := 8
  const BUS: Sig := 9
  const PIPE: Sig := 10
  const ALRM: Sig := 11
  const TERM: Sig := 12
  const USR1: Sig := 13
  const USR2: Sig := 14
  const CHLD: Sig := 15
  const URG: Sig := 16
  const STOP: Sig := 17
  const TSTP: Sig := 18
  const CONT: Sig := 19
  const TTIN: Sig := 20
  const TTOU: Sig := 21
  // POSIX 1003.1-2001 XSI extension
  const SYS: Sig := 22
  const POLL: Sig := 23
  const VTALRM: Sig := 24
  const PROF: Sig := 25
  const XCPU: Sig := 26
  const XFSZ: Sig := 27
  // Unix Version 7
  const IOT: Sig := 28
  const EMT: Sig := 29
  // USG Unix
  const PHONE: Sig := 30
  const WIND: Sig := 31
  // Unix System V
  const CLD: Sig := 32
  const PWR: Sig := 33
  // GNU/Linux 2.2 and Solaris 8
  const CANCEL: Sig := 34
  const LWP: Sig := 35
  const WAITING: Sig := 36
  const FREEZE: Sig := 37
  const THAW: Sig := 38
  const LOST: Sig := 39
  const WINCH: Sig := 40
  // GNU/Linux 2.2
  const INFO: Sig := 41
  const IO: Sig := 42
  const STKFLT: Sig := 43
  // AIX 5L
  const DANGER: Sig := 44
  const GRANT: Sig := 45
  const MIGRATE: Sig := 46
  const MSG: Sig := 47
  const PRE: Sig := 48
  const RETRACT: Sig := 49
  const SAK: Sig := 50
  const SOUND: Sig := 51
  // older AIX
  const ALRM1: Sig := 52
  const KAP: Sig := 53
  const VIRT: Sig := 54
  const WINDOW: Sig := 55
  // BeOS
  const KILLTHR: Sig := 56
  // older HP-UX
  const DIL: Sig := 57

  /** The spelling stored in a row's `name` field: the macro name without "SIG". */
  function Name(s: Sig): string
  {
    match s
    case 0 => "HUP"
    case 1 => "INT"
    case 2 => "QUIT"
    case 3 => "ILL"
    case 4 => "TRAP"
    case 5 => "ABRT"
    case 6 => "FPE"
    case 7 => "KILL"
    case 8 => "SEGV"
    case 9 => "BUS"
    case 10 => "PIPE"
    case 11 => "ALRM"
    case 12 => "TERM"
    case 13 => "USR1"
    case 14 => "USR2"
    case 15 => "CHLD"
    case 16 => "URG"
    case 17 => "STOP"
    case 18 => "TSTP"
    case 19 => "CONT"
    case 20 => "TTIN"
    case 21 => "TTOU"
    case 22 => "SYS"
    case 23 => "POLL"
    case 24 => "VTALRM"
    case 25 => "PROF"
    case 26 => "XCPU"
    case 27 => "XFSZ"
    case 28 => "IOT"
    case 29 => "EMT"
    case 30 => "PHONE"
    case 31 => "WIND"
    case 32 => "CLD"
    case 33 => "PWR"
    case 34 => "CANCEL"
    case 35 => "LWP"
    case 36 => "WAITING"
    case 37 => "FREEZE"
    case 38 => "THAW"
    case 39 => "LOST"
    case 40 => "WINCH"
    case 41 => "INFO"
    case 42 => "IO"
    case 43 => "STKFLT"
    case 44 => "DANGER"
    case 45 => "GRANT"
    case 46 => "MIGRATE"
    case 47 => "MSG"
    case 48 => "PRE"
    case 49 => "RETRACT"
    case 50 => "SAK"
    case 51 => "SOUND"
    case 52 => "ALRM1"
    case 53 => "KAP"
    case 54 => "VIRT"
    case 55 => "WINDOW"
    case 56 => "KILLTHR"
    case _ => "DIL"
  }

  predicate IsNameChar(c: char)
  {
    'A' <= c <= 'Z' || '0' <= c <= '9'
  }

  /** A name fits `char name[8]` with its terminator, is spelled with upper-case
      letters and digits only, and does not repeat the "SIG" prefix. */
  predicate ValidName(n: string)
  {
    && 0 < |n| < NameCapacity
    && (forall i :: 0 <= i < |n| ==> IsNameChar(n[i]))
    && !(|n| >= 3 && n[0] == 'S' && n[1] == 'I' && n[2] == 'G')
  }

  // Validity of the 58 spellings, split by master-list position so that each
  // part stays a small proof obligation.

  lemma NamesValidFrom0(s: Sig)
    requires s < 15
    ensures ValidName(Name(s)) && Name(s) != "EXIT"
  {
  }

  lemma NamesValidFrom15(s: Sig)
    requires 15 <= s < 30
    ensures ValidName(Name(s)) && Name(s) != "EXIT"
  {
  }

  lemma NamesValidFrom30(s: Sig)
    requires 30 <= s < 45
    ensures ValidName(Name(s)) && Name(s) != "EXIT"
  {
  }

  lemma NamesValidFrom45(s: Sig)
    requires 45 <= s
    ensures ValidName(Name(s)) && Name(s) != "EXIT"
  {
  }

  /** Every spelling fits the `name` field, and none collides with the sentinel's. */
  lemma NamesValid(s: Sig)
    ensures ValidName(Name(s))
    ensures Name(s) != "EXIT"
  {
    if s < 15 {
      NamesValidFrom0(s);
    } else if s < 30 {
      NamesValidFrom15(s);
    } else if s < 45 {
      NamesValidFrom30(s);
    } else {
      NamesValidFrom45(s);
    }
  }

  // Pairwise distinctness of the 58 spellings, split by master-list position
  // so that each part stays a small proof obligation.

  lemma NamesDistinctFrom0(a: Sig, b: Sig)
    requires a < 15
    ensures Name(a) == Name(b) ==> a == b
  {
  }

  lemma NamesDistinctFrom15(a: Sig, b: Sig)
    requires 15 <= a < 30
    ensures Name(a) == Name(b) ==> a == b
  {
  }

  lemma NamesDistinctFrom30(a: Sig, b: Sig)
    requires 30 <= a < 45
    ensures Name(a) == Name(b) ==> a == b
  {
  }

  lemma NamesDistinctFrom45(a: Sig, b: Sig)
    requires 45 <= a
    ensures Name(a) == Name(b) ==> a == b
  {
  }

  /** No two master-list entries share a spelling. */
  lemma NameInjective(a: Sig, b: Sig)
    ensures Name(a) == Name(b) <==> a == b
  {
    if a < 15 {
      NamesDistinctFrom0(a, b);
    } else if a < 30 {
      NamesDistinctFrom15(a, b);
    } else if a < 45 {
      NamesDistinctFrom30(a, b);
    } else {
      NamesDistinctFrom45(a, b);
    }
  }
}
