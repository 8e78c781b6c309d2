/**
 * The final weather message is the list of sentences joined with a
 * two-space separator (weather.py:190).  `Split` is the inverse a
 * downstream consumer applies; the lemmas below show that the two undo each
 * other.
 */
module Messages {
  import opened Results

  /** The separator placed between two sentences of the message. */
  const Separator: string := "  "

  /** `"  ".join(parts)`: the parts in order, with the separator between neighbours. */
  function Join(parts: seq<string>): string
  {
    if |parts| == 0 then ""
    else if |parts| == 1 then parts[0]
    else parts[0] + Separator + Join(parts[1..])
  }

  /** True when position `i` of `s` starts an occurrence of the separator. */
  predicate SeparatorAt(s: string, i: int)
    requires 0 <= i
  {
    i + 1 < |s| && s[i] == ' ' && s[i + 1] == ' '
  }

  /** The index of the leftmost occurrence of the separator in `s`, if any. */
  function FindSeparator(s: string): (r: Option<nat>)
    ensures r.Some? ==> SeparatorAt(s, r.value)
    ensures r.Some? ==> forall j | 0 <= j < r.value :: !SeparatorAt(s, j)
    ensures r.None? ==> forall j | 0 <= j < |s| :: !SeparatorAt(s, j)
  {
    if |s| < 2 then None
    else if s[0] == ' ' && s[1] == ' ' then Some(0)
    else
      var r := FindSeparator(s[1..]);
      assert forall j | 1 <= j < |s| :: SeparatorAt(s, j) == SeparatorAt(s[1..], j - 1);
      match r
      case None => None
      case Some(i) => Some(i + 1)
  }

  /** `s.split("  ")`: cut at each separator, scanning from the left. */
  function Split(s: string): (parts: seq<string>)
    ensures |parts| >= 1
    decreases |s|
  {
    match FindSeparator(s)
    case None => [s]
    case Some(i) => [s[..i]] + Split(s[i + 2..])
  }

  /**
   * A sentence that survives joining and splitting: every space in it is
   * followed by a character other than a space, so it holds no separator and
   * does not end in a space.
   */
  predicate Clean(p: string)
  {
    forall i | 0 <= i < |p| :: p[i] == ' ' ==> i + 1 < |p| && p[i + 1] != ' '
  }

  /** Two clean pieces make a clean sentence, since the first cannot end in a space. */
  lemma CleanConcat(a: string, b: string)
    requires Clean(a) && Clean(b)
    ensures Clean(a + b)
  {
    forall i | 0 <= i < |a + b| && (a + b)[i] == ' '
      ensures i + 1 < |a + b| && (a + b)[i + 1] != ' '
    {
      if i < |a| {
        assert a[i] == ' ';
      } else {
        assert b[i - |a|] == ' ';
      }
    }
  }

  /** A clean sentence holds no separator. */
  lemma CleanHasNoSeparator(p: string)
    requires Clean(p)
    ensures FindSeparator(p) == None
  {
  }

  /** After a clean sentence, the first separator is the one that follows it. */
  lemma SeparatorAfterClean(p: string, rest: string)
    requires Clean(p)
    ensures FindSeparator(p + Separator + rest) == Some(|p|)
  {
    var s := p + Separator + rest;
    assert SeparatorAt(s, |p|);
    forall j | 0 <= j < |p|
      ensures !SeparatorAt(s, j)
    {
      assert s[j] == p[j];
      if s[j] == ' ' && j + 1 < |p| {
        assert s[j + 1] == p[j + 1];
      }
    }
    var r := FindSeparator(s);
    assert r.Some?;
  }

  /** Splitting a joined list of clean sentences gives the list back. */
  lemma {:induction false} SplitJoin(parts: seq<string>)
    requires |parts| >= 1
    requires forall k | 0 <= k < |parts| :: Clean(parts[k])
    ensures Split(Join(parts)) == parts
  {
    if |parts| == 1 {
      CleanHasNoSeparator(parts[0]);
    } else {
      var rest := Join(parts[1..]);
      var s := parts[0] + Separator + rest;
      SeparatorAfterClean(parts[0], rest);
      assert s[..|parts[0]|] == parts[0];
      assert s[|parts[0]| + 2..] == rest;
      SplitJoin(parts[1..]);
      assert [parts[0]] + parts[1..] == parts;
    }
  }

  /** Joining the pieces of any string with the separator restores it. */
  lemma {:induction false} JoinSplit(s: string)
    ensures Join(Split(s)) == s
    decreases |s|
  {
    match FindSeparator(s)
    case None =>
    case Some(i) =>
      var tail := s[i + 2..];
      JoinSplit(tail);
      var parts := Split(s);
      assert parts == [s[..i]] + Split(tail);
      assert parts[1..] == Split(tail);
      assert s == s[..i] + Separator + tail;
  }
}
