/** Status classification (internal/providers/ticket/classify.go). */
module StatusMapping {
  import opened Strings

  datatype Mapping = Mapping(open: seq<string>, done: seq<string>, cancelled: seq<string>, superseded: string)

  datatype Class = Open | Done | Cancelled | Unknown

  function Lower(s: string): (r: string)
    ensures |r| == |s|
  {
    seq(|s|, i requires 0 <= i < |s| => if 'A' <= s[i] <= 'Z' then (s[i] as int + 32) as char else s[i])
  }

  /** strings.EqualFold on ASCII letters. */
  predicate EqualFold(a: string, b: string) {
    Lower(a) == Lower(b)
  }

  /** matchesStatus. */
  predicate Matches(values: seq<string>, status: string) {
    exists v | v in values :: EqualFold(TrimSpace(v), status)
  }

  /** ClassifyStatus: open wins over done, done over cancelled, and the superseded status
      counts as cancelled. */
  function Classify(m: Mapping, raw: string): Class {
    var status := TrimSpace(raw);
    if status == "" then Unknown
    else if Matches(m.open, status) then Open
    else if Matches(m.done, status) then Done
    else if Matches(m.cancelled, status) then Cancelled
    else if m.superseded != "" && Matches([m.superseded], status) then Cancelled
    else Unknown
  }

  /** Which list decides: the entries are compared without outer blanks and without case,
      a blank status belongs to no class, and an earlier list has the last word. */
  lemma ClassifyMeans(m: Mapping, raw: string)
    ensures var s := Lower(TrimSpace(raw));
            var open := exists v | v in m.open :: Lower(TrimSpace(v)) == s;
            var done := exists v | v in m.done :: Lower(TrimSpace(v)) == s;
            var cancelled := exists v | v in m.cancelled :: Lower(TrimSpace(v)) == s;
            var superseded := m.superseded != "" && Lower(TrimSpace(m.superseded)) == s;
            var k := Classify(m, raw);
            && (k == Open <==> s != "" && open)
            && (k == Done <==> s != "" && done && !open)
            && (k == Cancelled <==> s != "" && (cancelled || superseded) && !open && !done)
  {
    var status := TrimSpace(raw);
    assert forall values: seq<string> ::
      Matches(values, status) == exists v | v in values :: Lower(TrimSpace(v)) == Lower(status);
    assert m.superseded in [m.superseded];
  }

  /** A ticket left in the superseded status never holds a repo back: it reads as closed
      exactly when the status has a name and the open list does not claim it. */
  lemma SupersededReadsAsClosed(m: Mapping)
    ensures Classify(m, m.superseded) in {Done, Cancelled}
            <==> TrimSpace(m.superseded) != "" && !Matches(m.open, TrimSpace(m.superseded))
  {
    assert m.superseded in [m.superseded];
    if m.superseded == "" { assert TrimSpace(m.superseded) == ""; }
  }

  lemma OuterBlanksDoNotMatter(m: Mapping, raw: string)
    ensures Classify(m, TrimSpace(raw)) == Classify(m, raw)
  {
    TrimTwice(raw);
  }

  /** Two spellings of a status, differing in case or outer blanks, classify alike. */
  lemma SpellingDoesNotMatter(m: Mapping, a: string, b: string)
    requires EqualFold(TrimSpace(a), TrimSpace(b))
    ensures Classify(m, a) == Classify(m, b)
  {
    var x, y := TrimSpace(a), TrimSpace(b);
    assert |Lower(x)| == |Lower(y)|;
    forall values: seq<string>
      ensures Matches(values, x) == Matches(values, y)
    {
      assert forall v | v in values :: EqualFold(TrimSpace(v), x) == EqualFold(TrimSpace(v), y);
    }
  }
}
