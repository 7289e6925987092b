/** Notification target ids arrive from SQL as one comma-joined string and are split again
    (internal/store/repos.go:326-342). */
module CommaList {

  /** Where the text after the last comma starts. */
  function LastStart(s: string): (i: nat)
    ensures i <= |s| && ',' !in s[i..]
    ensures i > 0 ==> s[i - 1] == ','
  {
    if s == "" || s[|s| - 1] == ',' then |s|
    else
      var i := LastStart(s[..|s| - 1]);
      assert s[i..] == s[..|s| - 1][i..] + [s[|s| - 1]];
      i
  }

  function Keep(part: string): seq<string> {
    if part == "" then [] else [part]
  }

  /** The non-empty texts between commas. */
  function Parts(s: string): seq<string>
    decreases |s|
  {
    var i := LastStart(s);
    if i == 0 then Keep(s) else Parts(s[..i - 1]) + Keep(s[i..])
  }

  /** GROUP_CONCAT. */
  function Join(ids: seq<string>): string {
    if ids == [] then ""
    else if |ids| == 1 then ids[0]
    else Join(ids[..|ids| - 1]) + "," + ids[|ids| - 1]
  }

  ghost predicate AreIds(ids: seq<string>) {
    forall id | id in ids :: id != "" && ',' !in id
  }

  /** The parts of a string cut at any comma that no later comma follows. */
  lemma LastPart(s: string, start: nat)
    requires start <= |s| && ',' !in s[start..] && (start > 0 ==> s[start - 1] == ',')
    ensures Parts(s) == (if start == 0 then [] else Parts(s[..start - 1])) + Keep(s[start..])
  {
    LastStartIs(s, start);
    assert s[0..] == s;
  }

  lemma {:induction false} LastStartIs(s: string, start: nat)
    requires start <= |s| && ',' !in s[start..] && (start > 0 ==> s[start - 1] == ',')
    ensures LastStart(s) == start
  {
    assert start < |s| ==> s[|s| - 1] == s[start..][|s| - 1 - start];
    if start < |s| {
      var init := s[..|s| - 1];
      assert s[start..] == init[start..] + [s[|s| - 1]];
      LastStartIs(init, start);
    }
  }

  /** splitCommaSeparated: the loop cuts where the last comma left `start`. */
  method SplitCommaSeparated(s: string) returns (out: seq<string>)
    ensures out == Parts(s)
  {
    hide Parts;
    Nothing();
    out := [];
    if s == "" { return; }
    var start := 0;
    for i := 0 to |s| + 1
      invariant start <= i && (i == |s| + 1 ==> start == i)
      invariant forall j | start <= j < i && j < |s| :: s[j] != ','
      invariant start > 0 ==> out == Parts(s[..start - 1]) && (start <= |s| ==> s[start - 1] == ',')
      invariant start == 0 ==> out == []
    {
      if i == |s| || s[i] == ',' {
        var part := s[start..i];
        assert s[..i][start..] == part;
        LastPart(s[..i], start);
        assert start > 0 ==> s[..i][..start - 1] == s[..start - 1];
        if part != "" {
          out := out + [part];
        }
        start := i + 1;
      }
    }
    assert s[..|s|] == s;
  }

  lemma Nothing()
    ensures Parts("") == []
  {}

  // ---- round trips -----------------------------------------------------------------------------

  /** No part is empty or holds a comma. */
  lemma {:induction false} PartsAreIds(s: string)
    ensures AreIds(Parts(s))
    decreases |s|
  {
    var i := LastStart(s);
    if i > 0 { PartsAreIds(s[..i - 1]); }
    assert s[0..] == s;
  }

  lemma {:induction false} SplitUndoesJoin(ids: seq<string>)
    requires AreIds(ids)
    ensures Parts(Join(ids)) == ids
  {
    hide Parts, LastStart;
    Nothing();
    if ids != [] {
      var init, last := ids[..|ids| - 1], ids[|ids| - 1];
      assert last in ids && forall id | id in init :: id in ids;
      SplitUndoesJoin(init);
      if init == [] {
        LastPart(last, 0);
      } else {
        var s := Join(init) + "," + last;
        LastPart(s, |Join(init)| + 1);
        assert s[|Join(init)| + 1..] == last && s[..|Join(init)|] == Join(init);
      }
    }
  }

  /** Splitting gives a joined list back exactly when its members are non-empty and comma-free. */
  lemma SplitUndoesJoinExactly(ids: seq<string>)
    ensures Parts(Join(ids)) == ids <==> AreIds(ids)
  {
    PartsAreIds(Join(ids));
    if AreIds(ids) { SplitUndoesJoin(ids); }
  }

  /** No comma at an end and no two in a row. */
  ghost predicate NoStrayComma(s: string) {
    s == "" || (s[0] != ',' && s[|s| - 1] != ',' && forall i | 0 < i < |s| :: s[i] == ',' ==> s[i - 1] != ',')
  }

  /** Joining gives a split string back exactly when no comma is stray, so stray commas are all
      that splitting forgets. */
  lemma JoinUndoesSplitExactly(s: string)
    ensures Join(Parts(s)) == s <==> NoStrayComma(s)
  {
    if NoStrayComma(s) {
      JoinUndoesSplit(s);
    } else {
      PartsAreIds(s);
      JoinedHasNoStrayComma(Parts(s));
    }
  }

  lemma {:induction false} JoinUndoesSplit(s: string)
    requires NoStrayComma(s)
    ensures Join(Parts(s)) == s
    decreases |s|
  {
    var i := LastStart(s);
    assert s[0..] == s;
    if i > 0 {
      var front := s[..i - 1];
      assert i < |s| && i - 1 > 0 && front[|front| - 1] == s[i - 2];
      JoinUndoesSplit(front);
      assert Parts(front) != [];
      assert Parts(s) == Parts(front) + [s[i..]];
      assert Parts(s)[..|Parts(s)| - 1] == Parts(front);
      assert s == front + "," + s[i..];
    }
  }

  lemma {:induction false} JoinedHasNoStrayComma(ids: seq<string>)
    requires AreIds(ids)
    ensures NoStrayComma(Join(ids)) && (ids != [] ==> Join(ids) != "")
  {
    if ids != [] {
      var init, last := ids[..|ids| - 1], ids[|ids| - 1];
      assert last in ids && forall id | id in init :: id in ids;
      if init != [] { JoinedHasNoStrayComma(init); }
    }
  }
}
