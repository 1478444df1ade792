/**
 * The in-memory per-category counter of the current session, its reset,
 * and the plain-text report exported from it.
 */
module SessionTally {
  import opened Wrappers
  import opened Votes
  import opened Decimal

  /** `VoteCount`: one counter per category. */
  datatype VoteCount = VoteCount(excellent: nat, bien: nat, moyen: nat, insuffisant: nat)
  {
    function Get(t: VoteType): nat
    {
      match t
      case Excellent => excellent
      case Bien => bien
      case Moyen => moyen
      case Insuffisant => insuffisant
    }

    /** The counter after one more vote of category `t`. */
    function Inc(t: VoteType): (v: VoteCount)
      ensures v.Get(t) == Get(t) + 1
      ensures forall u :: u != t ==> v.Get(u) == Get(u)
    {
      match t
      case Excellent => this.(excellent := excellent + 1)
      case Bien => this.(bien := bien + 1)
      case Moyen => this.(moyen := moyen + 1)
      case Insuffisant => this.(insuffisant := insuffisant + 1)
    }
  }

  /** The counter at start and after a reset. */
  const Zero: VoteCount := VoteCount(0, 0, 0, 0)

  /** Number of votes of category `t` in `vs`. */
  function Occurrences(vs: seq<VoteType>, t: VoteType): nat
  {
    if vs == [] then 0 else (if vs[0] == t then 1 else 0) + Occurrences(vs[1..], t)
  }

  /** The counter after the votes `vs`, oldest first, starting from `v`. */
  function CountAll(v: VoteCount, vs: seq<VoteType>): VoteCount
    decreases |vs|
  {
    if vs == [] then v else CountAll(v.Inc(vs[0]), vs[1..])
  }

  /** After the votes `vs`, each category holds its start value plus its number of votes in `vs`. */
  lemma {:induction false} CountAllCounts(v: VoteCount, vs: seq<VoteType>)
    ensures forall t :: CountAll(v, vs).Get(t) == v.Get(t) + Occurrences(vs, t)
    decreases |vs|
  {
    if vs != [] {
      CountAllCounts(v.Inc(vs[0]), vs[1..]);
    }
  }

  /** After a reset, the counter holds for each category exactly the votes cast since. */
  lemma SessionCounts(vs: seq<VoteType>)
    ensures forall t :: CountAll(Zero, vs).Get(t) == Occurrences(vs, t)
  {
    CountAllCounts(Zero, vs);
  }

  /** First line of the exported report. */
  const ReportHeader: string := "Résultats (compteur smileys):"

  function ReportLine(caption: string, n: nat): string
  {
    caption + ": " + NatToString(n)
  }

  /** The report's lines: the header, then one line per category in fixed order. */
  function ReportLines(v: VoteCount): seq<string>
  {
    [ReportHeader,
     ReportLine("Excellent", v.excellent),
     ReportLine("Bien", v.bien),
     ReportLine("Moyen", v.moyen),
     ReportLine("Insuffisant", v.insuffisant)]
  }

  /** Lines joined by line feeds, no trailing line feed. */
  function JoinLines(ls: seq<string>): string
    requires |ls| >= 1
  {
    if |ls| == 1 then ls[0] else ls[0] + "\n" + JoinLines(ls[1..])
  }

  /** The exported text. */
  function ExportText(v: VoteCount): string
  {
    JoinLines(ReportLines(v))
  }

  /** Splits a text at every line feed. */
  function Lines(s: string): (ls: seq<string>)
    ensures |ls| >= 1
  {
    if s == [] then [""]
    else
      var rest := Lines(s[1..]);
      if s[0] == '\n' then [""] + rest else [[s[0]] + rest[0]] + rest[1..]
  }

  function StripPrefix(p: string, s: string): Option<string>
  {
    if |p| <= |s| && s[..|p|] == p then Some(s[|p|..]) else None
  }

  function ParseLine(caption: string, line: string): Option<nat>
  {
    match StripPrefix(caption + ": ", line)
    case Some(digits) => ParseNat(digits)
    case None => None
  }

  /** Reads the four counts back from a report; None for any other text. */
  function ParseReport(text: string): Option<VoteCount>
  {
    var ls := Lines(text);
    if |ls| != 5 || ls[0] != ReportHeader then None
    else
      match (ParseLine("Excellent", ls[1]), ParseLine("Bien", ls[2]),
             ParseLine("Moyen", ls[3]), ParseLine("Insuffisant", ls[4]))
      case (Some(e), Some(b), Some(m), Some(i)) => Some(VoteCount(e, b, m, i))
      case _ => None
  }

  lemma {:induction false} LinesSingle(s: string)
    requires '\n' !in s
    ensures Lines(s) == [s]
  {
    if s != [] {
      assert '\n' !in s[1..] by {
        assert forall c :: c in s[1..] ==> c in s;
      }
      LinesSingle(s[1..]);
      assert [s[0]] + s[1..] == s;
    }
  }

  lemma {:induction false} LinesCons(a: string, b: string)
    requires '\n' !in a
    ensures Lines(a + "\n" + b) == [a] + Lines(b)
  {
    if a == [] {
      assert (a + "\n" + b)[1..] == b;
    } else {
      var x := a + "\n" + b;
      assert x[0] == a[0] && x[1..] == a[1..] + "\n" + b;
      assert '\n' !in a[1..] by {
        assert forall c :: c in a[1..] ==> c in a;
      }
      LinesCons(a[1..], b);
      assert [a[0]] + a[1..] == a;
    }
  }

  /** Splitting joined lines that hold no line feed gives the lines back. */
  lemma {:induction false} LinesOfJoin(ls: seq<string>)
    requires |ls| >= 1
    requires forall i :: 0 <= i < |ls| ==> '\n' !in ls[i]
    ensures Lines(JoinLines(ls)) == ls
  {
    if |ls| == 1 {
      LinesSingle(ls[0]);
    } else {
      LinesOfJoin(ls[1..]);
      LinesCons(ls[0], JoinLines(ls[1..]));
    }
  }

  lemma ReportLineNoBreak(caption: string, n: nat)
    requires '\n' !in caption
    ensures '\n' !in ReportLine(caption, n)
  {
    var d := NatToString(n);
    assert forall i :: 0 <= i < |d| ==> d[i] != '\n';
  }

  lemma ReportLineParses(caption: string, n: nat)
    ensures ParseLine(caption, ReportLine(caption, n)) == Some(n)
  {
    var p := caption + ": ";
    assert ReportLine(caption, n) == p + NatToString(n);
    assert StripPrefix(p, p + NatToString(n)) == Some(NatToString(n));
    NatRoundTrip(n);
  }

  lemma ExportLines(v: VoteCount)
    ensures Lines(ExportText(v)) == ReportLines(v)
  {
    var ls := ReportLines(v);
    ReportLineNoBreak("Excellent", v.excellent);
    ReportLineNoBreak("Bien", v.bien);
    ReportLineNoBreak("Moyen", v.moyen);
    ReportLineNoBreak("Insuffisant", v.insuffisant);
    LinesOfJoin(ls);
  }

  /** The report is unambiguous: it reads back as exactly the counter it was built from. */
  lemma ExportRoundTrip(v: VoteCount)
    ensures ParseReport(ExportText(v)) == Some(v)
  {
    ExportLines(v);
    ReportLineParses("Excellent", v.excellent);
    ReportLineParses("Bien", v.bien);
    ReportLineParses("Moyen", v.moyen);
    ReportLineParses("Insuffisant", v.insuffisant);
  }

  /** Distinct counters give distinct reports. */
  lemma ExportInjective(v: VoteCount, w: VoteCount)
    ensures ExportText(v) == ExportText(w) ==> v == w
  {
    ExportRoundTrip(v);
    ExportRoundTrip(w);
  }
}
