/**
 * A player's sidebar: a list of lines built up by the game, drawn onto a
 * fixed set of fifteen scoreboard slots, and an animated title.
 *
 * The Bukkit scoreboard is modelled by the scores it holds (entry to score)
 * and by the trace of calls made on it.
 */
module Scoreboard {
  import opened Results

  // ---------------------------------------------------------------------
  // Constants

  /** The character that starts every chat colour code (U+00A7). */
  const SECTION: char := '\U{00A7}'

  /** Chat colour codes, as `ChatColor.toString()` gives them. */
  const BOLD: string := [SECTION, 'l']
  const RESET: string := [SECTION, 'r']
  const YELLOW: string := [SECTION, 'e']
  const AQUA: string := [SECTION, 'b']
  const DARK_AQUA: string := [SECTION, '3']
  const RED: string := [SECTION, 'c']

  /** `Colors.bold(colour)`: the colour followed by the bold code. */
  function Bold(colour: string): string {
    colour + BOLD
  }

  /** The number of sidebar slots. */
  const SLOTS: nat := 15
  /** The longest line `write` keeps. */
  const MAX_LINE: nat := 16
  /** Milliseconds between two animation cycles. */
  const ANIMATION_PERIOD: int := 3200
  /** The last animation frame; the frame after it is 0. */
  const LAST_FRAME: int := 14
  /** The animated title. */
  const TITLE: string := "Hyleria UHC"

  // ---------------------------------------------------------------------
  // Lines

  /** `content.substring(0, min(16, content.length()))`. */
  function Truncate(content: string): (r: string)
    ensures |r| == if |content| < MAX_LINE then |content| else MAX_LINE
    ensures r == content[..|r|]
    ensures |content| <= MAX_LINE ==> r == content
  {
    content[..if |content| < MAX_LINE then |content| else MAX_LINE]
  }

  /** `n` copies of the reset code. */
  function ResetRun(n: nat): (r: string)
    ensures |r| == 2 * n
  {
    if n == 0 then "" else ResetRun(n - 1) + RESET
  }

  /** The length of the longest line in `lines`. */
  function MaxLen(lines: seq<string>): (r: nat)
    ensures forall i :: 0 <= i < |lines| ==> |lines[i]| <= r
  {
    if lines == [] then 0
    else
      var m := MaxLen(lines[1..]);
      assert forall i :: 1 <= i < |lines| ==> lines[i] == lines[1..][i - 1];
      if |lines[0]| > m then |lines[0]| else m
  }

  /**
   * The least number of reset codes, from k on, that makes `x` differ from
   * every line of `seen`.
   */
  function PadCountFrom(x: string, seen: seq<string>, k: nat): (r: nat)
    ensures k <= r
    ensures x + ResetRun(r) !in seen
    ensures forall j :: k <= j < r ==> x + ResetRun(j) in seen
    decreases MaxLen(seen) - 2 * k - |x|
  {
    if x + ResetRun(k) in seen then
      assert |x + ResetRun(k)| <= MaxLen(seen);
      PadCountFrom(x, seen, k + 1)
    else k
  }

  /** The least number of reset codes that makes `x` differ from every line of `seen`. */
  function PadCount(x: string, seen: seq<string>): (k: nat)
    ensures x + ResetRun(k) !in seen
    ensures forall j :: 0 <= j < k ==> x + ResetRun(j) in seen
  {
    PadCountFrom(x, seen, 0)
  }

  /** Appending j reset codes after m of them is appending m + j. */
  lemma {:induction false} ResetRunAdd(m: nat, j: nat)
    ensures ResetRun(m) + ResetRun(j) == ResetRun(m + j)
    decreases j
  {
    if j > 0 {
      ResetRunAdd(m, j - 1);
      assert ResetRun(m) + ResetRun(j) == (ResetRun(m) + ResetRun(j - 1)) + RESET;
    } else {
      assert ResetRun(m) + ResetRun(0) == ResetRun(m);
    }
  }

  /**
   * A pass that found the line `x` padded m times and appended c more codes
   * leaves every padding below m + c already drawn, and the line no longer
   * than two past the longest drawn line.
   */
  lemma PassExtendsRun(x: string, drawn: seq<string>, m: nat, c: nat, next: string)
    requires c > 0 && next == (x + ResetRun(m)) + ResetRun(c)
    requires forall j :: 0 <= j < m ==> x + ResetRun(j) in drawn
    requires forall j :: 0 <= j < c ==> (x + ResetRun(m)) + ResetRun(j) in drawn
    ensures next == x + ResetRun(m + c)
    ensures forall j :: 0 <= j < m + c ==> x + ResetRun(j) in drawn
    ensures |x + ResetRun(m)| < |next| <= MaxLen(drawn) + 2
  {
    ResetRunAdd(m, c);
    forall j | m <= j < m + c ensures x + ResetRun(j) in drawn {
      ResetRunAdd(m, j - m);
      assert (x + ResetRun(m)) + ResetRun(j - m) == x + ResetRun(j);
    }
    ResetRunAdd(m, c - 1);
    assert (x + ResetRun(m)) + ResetRun(c - 1) == x + ResetRun(m + c - 1);
  }

  /** The padding count is determined: it is the first count not already seen. */
  lemma PadCountIsFirstUnseen(x: string, seen: seq<string>, m: nat)
    requires forall j :: 0 <= j < m ==> x + ResetRun(j) in seen
    requires x + ResetRun(m) !in seen
    ensures PadCount(x, seen) == m
  {
  }

  /** `x` with as few reset codes appended as make it differ from every line of `seen`. */
  function Unique(x: string, seen: seq<string>): (line: string)
    ensures line !in seen
    ensures line == x + ResetRun(PadCount(x, seen))
  {
    x + ResetRun(PadCount(x, seen))
  }

  predicate Distinct(lines: seq<string>) {
    forall i, j :: 0 <= i < j < |lines| ==> lines[i] != lines[j]
  }

  /**
   * The de-duplicated lines `draw()` renders: each line in turn, made unique
   * against the lines before it. DedupAt proves this of every index, and
   * DedupDistinct that no two drawn lines are equal.
   */
  function Dedup(elements: seq<string>): (drawn: seq<string>)
    ensures |drawn| == |elements|
    decreases |elements|
  {
    if elements == [] then []
    else
      var n := |elements| - 1;
      Dedup(elements[..n]) + [Unique(elements[n], Dedup(elements[..n]))]
  }

  /** De-duplicating a prefix gives the prefix of the de-duplicated lines. */
  lemma {:induction false} DedupPrefix(elements: seq<string>, i: nat)
    requires i <= |elements|
    ensures Dedup(elements)[..i] == Dedup(elements[..i])
    decreases |elements|
  {
    if i < |elements| {
      var n := |elements| - 1;
      assert elements[..n][..i] == elements[..i];
      DedupPrefix(elements[..n], i);
      assert Dedup(elements)[..i] == Dedup(elements[..n])[..i];
    } else {
      assert elements[..i] == elements;
    }
  }

  /** Line i is drawn as the i-th element made unique against the lines drawn above it. */
  lemma DedupAt(elements: seq<string>, i: nat)
    requires i < |elements|
    ensures Dedup(elements)[i] == Unique(elements[i], Dedup(elements)[..i])
  {
    var drawn := Dedup(elements);
    var above := Dedup(elements[..i]);
    var line := Unique(elements[i], above);
    assert drawn[..i] == above by {
      DedupPrefix(elements, i);
    }
    assert drawn[..i + 1] == above + [line] by {
      DedupPrefix(elements, i + 1);
      DedupSnoc(elements, i);
    }
    assert drawn[i] == (above + [line])[i];
  }

  /** No two drawn lines are equal. */
  lemma DedupDistinct(elements: seq<string>)
    ensures Distinct(Dedup(elements))
  {
    var drawn := Dedup(elements);
    forall i, j | 0 <= i < j < |drawn| ensures drawn[i] != drawn[j] {
      DedupAt(elements, j);
      assert drawn[i] in drawn[..j];
    }
  }

  /** De-duplicating one more line extends the de-duplicated prefix by that line. */
  lemma DedupSnoc(elements: seq<string>, i: nat)
    requires i < |elements|
    ensures Dedup(elements[..i + 1]) == Dedup(elements[..i]) + [Unique(elements[i], Dedup(elements[..i]))]
  {
    assert elements[..i + 1][..i] == elements[..i];
  }

  /** Lines that are already distinct are drawn as they are. */
  lemma {:induction false} DedupOfDistinct(elements: seq<string>)
    requires Distinct(elements)
    ensures Dedup(elements) == elements
    decreases |elements|
  {
    if elements != [] {
      var n := |elements| - 1;
      assert Distinct(elements[..n]);
      DedupOfDistinct(elements[..n]);
      assert elements[n] + ResetRun(0) == elements[n];
      assert elements[n] !in elements[..n];
      PadCountIsFirstUnseen(elements[n], elements[..n], 0);
      assert elements[..n] + [elements[n]] == elements;
    }
  }

  // ---------------------------------------------------------------------
  // Slots and the calls made on the Bukkit scoreboard

  /** `resetScores(entry)` and `getScore(entry).setScore(score)`. */
  datatype BoardCall = ResetScores(entry: string) | SetScore(entry: string, score: int)

  function ApplyCall(scores: map<string, int>, c: BoardCall): map<string, int> {
    match c
    case ResetScores(e) => scores - {e}
    case SetScore(e, s) => scores[e := s]
  }

  /** The scores after the calls, in order. */
  function ApplyCalls(scores: map<string, int>, calls: seq<BoardCall>): map<string, int>
    decreases |calls|
  {
    if calls == [] then scores
    else ApplyCall(ApplyCalls(scores, calls[..|calls| - 1]), calls[|calls| - 1])
  }

  lemma ApplyCallsSnoc(scores: map<string, int>, calls: seq<BoardCall>, c: BoardCall)
    ensures ApplyCalls(scores, calls + [c]) == ApplyCall(ApplyCalls(scores, calls), c)
  {
    assert (calls + [c])[..|calls|] == calls;
  }

  lemma {:induction false} ApplyCallsAppend(scores: map<string, int>, a: seq<BoardCall>, b: seq<BoardCall>)
    ensures ApplyCalls(scores, a + b) == ApplyCalls(ApplyCalls(scores, a), b)
    decreases |b|
  {
    if b != [] {
      var n := |b| - 1;
      assert a + b == (a + b[..n]) + [b[n]];
      ApplyCallsSnoc(scores, a + b[..n], b[n]);
      ApplyCallsAppend(scores, a, b[..n]);
      ApplyCallsSnoc(ApplyCalls(scores, a), b[..n], b[n]);
      assert b[..n] + [b[n]] == b;
    } else {
      assert a + b == a;
    }
  }

  /** How many slots show a line after drawing `drawn`. */
  function Visible(drawn: seq<string>): nat {
    if |drawn| < SLOTS then |drawn| else SLOTS
  }

  /** What the slots hold after drawing `drawn`. */
  function Layout(drawn: seq<string>): (slots: seq<Option<string>>)
    ensures |slots| == SLOTS
  {
    seq(SLOTS, i requires 0 <= i < SLOTS => if i < |drawn| then Some(drawn[i]) else None)
  }

  /** No line occupies two slots. */
  predicate DistinctSome(slots: seq<Option<string>>) {
    forall i, j :: 0 <= i < j < |slots| && slots[i].Some? ==> slots[i] != slots[j]
  }

  lemma LayoutDistinct(drawn: seq<string>)
    requires Distinct(drawn)
    ensures DistinctSome(Layout(drawn))
  {
  }

  /** Slot j held a line that must go: it changed, or it fell off the end. */
  predicate Stale(before: seq<Option<string>>, drawn: seq<string>, j: nat)
    requires j < |before|
  {
    before[j].Some? && (j >= |drawn| || before[j].value != drawn[j])
  }

  /** What the slots hold once the stale ones are emptied. */
  function Cleared(before: seq<Option<string>>, drawn: seq<string>): (slots: seq<Option<string>>)
    ensures |slots| == |before|
  {
    seq(|before|, j requires 0 <= j < |before| => if Stale(before, drawn, j) then None else before[j])
  }

  /** Slot j must show a line it does not show yet. */
  predicate Changed(before: seq<Option<string>>, drawn: seq<string>, j: nat)
    requires j < |before|
  {
    j < |drawn| && before[j] != Some(drawn[j])
  }

  /** The resets of the stale lines of slots [0, n), slot by slot. */
  function ResetCalls(before: seq<Option<string>>, drawn: seq<string>, n: nat): seq<BoardCall>
    requires n <= |before|
  {
    if n == 0 then []
    else ResetCalls(before, drawn, n - 1)
         + (if Stale(before, drawn, n - 1) then [ResetScores(before[n - 1].value)] else [])
  }

  /** The provisional scores `15 - i` of the changed slots [0, n). */
  function AddCalls(before: seq<Option<string>>, drawn: seq<string>, n: nat): seq<BoardCall>
    requires n <= |before|
  {
    if n == 0 then []
    else AddCalls(before, drawn, n - 1)
         + (if Changed(before, drawn, n - 1) then [SetScore(drawn[n - 1], SLOTS - (n - 1))] else [])
  }

  /** The final scores `size - i` of the lines [0, n). */
  function RankCalls(drawn: seq<string>, size: nat, n: nat): seq<BoardCall>
    requires n <= |drawn|
  {
    if n == 0 then []
    else RankCalls(drawn, size, n - 1) + [SetScore(drawn[n - 1], size - (n - 1))]
  }

  /** Every call one `draw()` makes, in order, when the slots held `before`. */
  function DrawCalls(before: seq<Option<string>>, drawn: seq<string>): seq<BoardCall>
    requires |before| == SLOTS
  {
    ResetCalls(before, drawn, |before|) + AddCalls(before, drawn, |before|) + RankCalls(drawn, Visible(drawn), Visible(drawn))
  }

  /** The three phases of a draw, one after the other, make up its calls. */
  lemma DrawCallsCompose(calls: seq<BoardCall>, scores: map<string, int>, before: seq<Option<string>>, drawn: seq<string>)
    requires |before| == SLOTS
    ensures var resets := ResetCalls(before, drawn, |before|);
            var adds := AddCalls(before, drawn, |before|);
            var ranks := RankCalls(drawn, Visible(drawn), Visible(drawn));
            && calls + resets + adds + ranks == calls + DrawCalls(before, drawn)
            && ApplyCalls(ApplyCalls(ApplyCalls(scores, resets), adds), ranks) == ApplyCalls(scores, DrawCalls(before, drawn))
  {
    var resets := ResetCalls(before, drawn, |before|);
    var adds := AddCalls(before, drawn, |before|);
    var ranks := RankCalls(drawn, Visible(drawn), Visible(drawn));
    assert DrawCalls(before, drawn) == (resets + adds) + ranks;
    assert calls + resets + adds + ranks == calls + ((resets + adds) + ranks);
    ApplyCallsAppend(scores, resets, adds);
    ApplyCallsAppend(scores, resets + adds, ranks);
  }

  /** The lines reset among slots [0, n). */
  function StaleLines(before: seq<Option<string>>, drawn: seq<string>, n: nat): set<string>
    requires n <= |before|
  {
    set j | 0 <= j < n && Stale(before, drawn, j) :: before[j].value
  }

  /** The lines given a provisional score among slots [0, n). */
  function ChangedLines(before: seq<Option<string>>, drawn: seq<string>, n: nat): set<string>
    requires n <= |before|
  {
    set j | 0 <= j < n && Changed(before, drawn, j) :: drawn[j]
  }

  lemma StaleLinesStep(before: seq<Option<string>>, drawn: seq<string>, n: nat)
    requires 0 < n <= |before|
    ensures StaleLines(before, drawn, n) ==
      StaleLines(before, drawn, n - 1) + if Stale(before, drawn, n - 1) then {before[n - 1].value} else {}
  {
  }

  lemma ChangedLinesStep(before: seq<Option<string>>, drawn: seq<string>, n: nat)
    requires 0 < n <= |before|
    ensures ChangedLines(before, drawn, n) ==
      ChangedLines(before, drawn, n - 1) + if Changed(before, drawn, n - 1) then {drawn[n - 1]} else {}
  {
  }

  /** Removing one more entry from a map that lost the entries `lines`. */
  lemma ResetScoresStep(scores: map<string, int>, lines: set<string>, x: string)
    ensures (scores - lines) - {x} == scores - (lines + {x})
  {
  }

  lemma {:induction false} ResetCallsEffect(scores: map<string, int>, before: seq<Option<string>>, drawn: seq<string>, n: nat)
    requires n <= |before|
    ensures ApplyCalls(scores, ResetCalls(before, drawn, n)) == scores - StaleLines(before, drawn, n)
  {
    if n > 0 {
      var earlier := ResetCalls(before, drawn, n - 1);
      ResetCallsEffect(scores, before, drawn, n - 1);
      StaleLinesStep(before, drawn, n);
      if Stale(before, drawn, n - 1) {
        var last := ResetScores(before[n - 1].value);
        assert ResetCalls(before, drawn, n) == earlier + [last];
        ApplyCallsSnoc(scores, earlier, last);
        ResetScoresStep(scores, StaleLines(before, drawn, n - 1), before[n - 1].value);
      } else {
        assert ResetCalls(before, drawn, n) == earlier;
      }
    }
  }

  lemma {:induction false} AddCallsEffect(scores: map<string, int>, before: seq<Option<string>>, drawn: seq<string>, n: nat)
    requires n <= |before|
    ensures ApplyCalls(scores, AddCalls(before, drawn, n)).Keys == scores.Keys + ChangedLines(before, drawn, n)
    ensures forall k :: k in scores && k !in ChangedLines(before, drawn, n) ==>
      ApplyCalls(scores, AddCalls(before, drawn, n))[k] == scores[k]
  {
    if n > 0 {
      var earlier := AddCalls(before, drawn, n - 1);
      AddCallsEffect(scores, before, drawn, n - 1);
      ChangedLinesStep(before, drawn, n);
      if Changed(before, drawn, n - 1) {
        var last := SetScore(drawn[n - 1], SLOTS - (n - 1));
        assert AddCalls(before, drawn, n) == earlier + [last];
        ApplyCallsSnoc(scores, earlier, last);
        SetScoreKeys(scores, ApplyCalls(scores, earlier), ChangedLines(before, drawn, n - 1), drawn[n - 1], SLOTS - (n - 1));
      } else {
        assert AddCalls(before, drawn, n) == earlier;
      }
    }
  }

  /** The lines [0, n) of `drawn`, as a set. */
  function Shown(drawn: seq<string>, n: nat): set<string>
    requires n <= |drawn|
  {
    set j | 0 <= j < n :: drawn[j]
  }

  lemma ShownSnoc(drawn: seq<string>, n: nat)
    requires 0 < n <= |drawn|
    ensures Shown(drawn, n) == Shown(drawn, n - 1) + {drawn[n - 1]}
  {
  }

  /** One more score on top of calls that added the lines `lines` and touched nothing else. */
  lemma SetScoreKeys(scores: map<string, int>, prev: map<string, int>, lines: set<string>, x: string, v: int)
    requires prev.Keys == scores.Keys + lines
    requires forall k :: k in scores && k !in lines ==> prev[k] == scores[k]
    ensures prev[x := v].Keys == scores.Keys + (lines + {x})
    ensures forall k :: k in scores && k !in lines + {x} ==> prev[x := v][k] == scores[k]
  {
  }

  lemma {:induction false} RankCallsKeys(scores: map<string, int>, drawn: seq<string>, size: nat, n: nat)
    requires n <= |drawn|
    ensures ApplyCalls(scores, RankCalls(drawn, size, n)).Keys == scores.Keys + Shown(drawn, n)
    ensures forall k :: k in scores && k !in Shown(drawn, n) ==> ApplyCalls(scores, RankCalls(drawn, size, n))[k] == scores[k]
  {
    if n > 0 {
      var earlier := RankCalls(drawn, size, n - 1);
      var last := SetScore(drawn[n - 1], size - (n - 1));
      assert RankCalls(drawn, size, n) == earlier + [last];
      RankCallsKeys(scores, drawn, size, n - 1);
      ApplyCallsSnoc(scores, earlier, last);
      SetScoreKeys(scores, ApplyCalls(scores, earlier), Shown(drawn, n - 1), drawn[n - 1], size - (n - 1));
      ShownSnoc(drawn, n);
    }
  }

  /** One more score for a line not among the first `n`, which keep theirs. */
  lemma SetScoreRanks(prev: map<string, int>, drawn: seq<string>, size: nat, n: nat)
    requires n < |drawn| && Distinct(drawn)
    requires forall j :: 0 <= j < n ==> drawn[j] in prev && prev[drawn[j]] == size - j
    ensures forall j :: 0 <= j <= n ==>
      drawn[j] in prev[drawn[n] := size - n] && prev[drawn[n] := size - n][drawn[j]] == size - j
  {
    var after := prev[drawn[n] := size - n];
    forall j | 0 <= j < n ensures drawn[j] in after && after[drawn[j]] == size - j {
      assert drawn[j] != drawn[n];
    }
  }

  lemma {:induction false} RankCallsScores(scores: map<string, int>, drawn: seq<string>, size: nat, n: nat)
    requires n <= |drawn| && Distinct(drawn)
    ensures forall j :: 0 <= j < n ==>
      drawn[j] in ApplyCalls(scores, RankCalls(drawn, size, n)) && ApplyCalls(scores, RankCalls(drawn, size, n))[drawn[j]] == size - j
  {
    if n > 0 {
      var earlier := RankCalls(drawn, size, n - 1);
      var last := SetScore(drawn[n - 1], size - (n - 1));
      assert RankCalls(drawn, size, n) == earlier + [last];
      RankCallsScores(scores, drawn, size, n - 1);
      ApplyCallsSnoc(scores, earlier, last);
      SetScoreRanks(ApplyCalls(scores, earlier), drawn, size, n - 1);
    }
  }

  /**
   * What the scores are after one `draw()`: line i of the visible ones
   * scores `size - i`; the stale lines are gone unless drawn again; every
   * other entry keeps its score.
   */
  lemma ScoresAfterDraw(scores: map<string, int>, before: seq<Option<string>>, drawn: seq<string>)
    requires |before| == SLOTS && Distinct(drawn)
    ensures var after := ApplyCalls(scores, DrawCalls(before, drawn));
            var size := Visible(drawn);
            && (forall i :: 0 <= i < size ==> drawn[i] in after && after[drawn[i]] == size - i)
            && after.Keys == (scores.Keys - StaleLines(before, drawn, |before|)) + Shown(drawn, size)
            && (forall k :: k in after && k !in Shown(drawn, size) ==> after[k] == scores[k])
  {
    var size := Visible(drawn);
    var resets := ResetCalls(before, drawn, |before|);
    var adds := AddCalls(before, drawn, |before|);
    var ranks := RankCalls(drawn, size, size);
    var s1 := ApplyCalls(scores, resets);
    var s2 := ApplyCalls(s1, adds);
    ApplyCallsAppend(scores, resets, adds);
    ApplyCallsAppend(scores, resets + adds, ranks);
    ResetCallsEffect(scores, before, drawn, |before|);
    AddCallsEffect(s1, before, drawn, |before|);
    RankCallsKeys(s2, drawn, size, size);
    RankCallsScores(s2, drawn, size, size);
    assert ChangedLines(before, drawn, |before|) <= Shown(drawn, size) by {
      forall j | 0 <= j < SLOTS && Changed(before, drawn, j) ensures drawn[j] in Shown(drawn, size) {
        assert j < size;
      }
    }
  }

  /**
   * A line that stays in its slot is neither reset nor given a provisional
   * score: only the final ranking touches it, so it does not flicker.
   */
  lemma {:induction false} KeptLineIsUntouched(before: seq<Option<string>>, drawn: seq<string>, j: nat, n: nat)
    requires |before| == SLOTS && n <= SLOTS && DistinctSome(before) && Distinct(drawn)
    requires j < |drawn| && j < SLOTS && before[j] == Some(drawn[j])
    ensures ResetScores(drawn[j]) !in ResetCalls(before, drawn, n)
    ensures forall s :: SetScore(drawn[j], s) !in AddCalls(before, drawn, n)
  {
    if n > 0 {
      KeptLineIsUntouched(before, drawn, j, n - 1);
      var i := n - 1;
      if Stale(before, drawn, i) {
        assert i != j;
        assert before[i].value != drawn[j] by {
          if i < j { assert before[i] != before[j]; } else { assert before[j] != before[i]; }
        }
      }
      if Changed(before, drawn, i) {
        assert i != j;
        assert drawn[i] != drawn[j] by {
          if i < j { assert drawn[i] != drawn[j]; } else { assert drawn[j] != drawn[i]; }
        }
      }
    }
  }

  /** Redrawing the lines already shown resets nothing and adds nothing. */
  lemma {:induction false} RedrawIsQuiet(drawn: seq<string>, n: nat)
    requires n <= SLOTS
    ensures ResetCalls(Layout(drawn), drawn, n) == []
    ensures AddCalls(Layout(drawn), drawn, n) == []
  {
    if n > 0 {
      RedrawIsQuiet(drawn, n - 1);
      assert !Stale(Layout(drawn), drawn, n - 1);
      assert !Changed(Layout(drawn), drawn, n - 1);
    }
  }

  /** The number of occupied slots among the first n. */
  function CountSome(slots: seq<Option<string>>, n: nat): nat
    requires n <= |slots|
  {
    if n == 0 then 0 else CountSome(slots, n - 1) + (if slots[n - 1].Some? then 1 else 0)
  }

  /** After drawing, as many slots are occupied as there are lines, up to fifteen. */
  lemma {:induction false} CountSomeLayout(drawn: seq<string>, n: nat)
    requires n <= SLOTS
    ensures CountSome(Layout(drawn), n) == if |drawn| < n then |drawn| else n
  {
    if n > 0 {
      CountSomeLayout(drawn, n - 1);
    }
  }

  // ---------------------------------------------------------------------
  // Animation

  /** `TimeUtil.elapsed(since, duration)` at time `now`. */
  predicate Elapsed(since: int, now: int, duration: int) {
    now - since > duration
  }

  /** The frame after `frame`: one more, with the last frame wrapping to 0. */
  function NextFrame(frame: int): int {
    if frame == LAST_FRAME then 0 else frame + 1
  }

  /** The frame reached from `frame` after `ticks` animation steps. */
  function FrameAfter(frame: int, ticks: nat): int {
    if ticks == 0 then frame else NextFrame(FrameAfter(frame, ticks - 1))
  }

  /** The frames run through 0..14 in a cycle of fifteen. */
  lemma {:induction false} FrameAfterCycles(frame: int, ticks: nat)
    requires 0 <= frame <= LAST_FRAME
    ensures FrameAfter(frame, ticks) == (frame + ticks) % (LAST_FRAME + 1)
  {
    if ticks > 0 {
      FrameAfterCycles(frame, ticks - 1);
    }
  }

  /** `to` with the character at `idx`, if there is one, shown in bold aqua. */
  function Highlight(to: string, idx: int): string {
    if 0 <= idx < |to| then to[..idx] + Bold(AQUA) + [to[idx]] + Bold(DARK_AQUA) + to[idx + 1..]
    else to
  }

  /**
   * The title text for frame `idx`: a sweep along the characters, then two
   * flashes of the whole text.
   */
  function Animated(to: string, idx: int): string {
    Bold(DARK_AQUA) +
    if idx == |to| + 1 || idx == |to| + 3 then Bold(AQUA) + to
    else if idx == |to| + 2 || idx == |to| + 4 then Bold(DARK_AQUA) + to
    else Highlight(to, idx)
  }

  /** Highlighting a text one character longer. */
  lemma HighlightSnoc(t: string, c: char, idx: int)
    ensures idx == |t| ==> Highlight(t + [c], idx) == Highlight(t, idx) + (Bold(AQUA) + [c] + Bold(DARK_AQUA))
    ensures idx != |t| ==> Highlight(t + [c], idx) == Highlight(t, idx) + [c]
  {
    var u := t + [c];
    if 0 <= idx < |t| {
      assert u[..idx] == t[..idx];
      assert u[idx + 1..] == t[idx + 1..] + [c];
    } else if idx == |t| {
      assert u[..idx] == t;
      assert u[idx + 1..] == [];
    }
  }

  /** Highlighting leaves the text's characters in order and adds markers around one. */
  lemma HighlightShape(to: string, idx: int)
    ensures 0 <= idx < |to| ==>
      |Highlight(to, idx)| == |to| + 8 && Highlight(to, idx)[..idx] == to[..idx]
      && Highlight(to, idx)[idx + 4] == to[idx] && Highlight(to, idx)[idx + 9..] == to[idx + 1..]
    ensures !(0 <= idx < |to|) ==> Highlight(to, idx) == to
  {
  }

  /**
   * Over one cycle of the title: frames 0 to 10 sweep across its eleven
   * characters, frame 11 shows it plain, frames 12 and 14 flash it aqua and
   * frame 13 dark aqua.
   */
  lemma TitleFrames(frame: int)
    requires 0 <= frame <= LAST_FRAME
    ensures frame < |TITLE| ==> Animated(TITLE, frame) == Bold(DARK_AQUA) + Highlight(TITLE, frame)
    ensures frame == 11 ==> Animated(TITLE, frame) == Bold(DARK_AQUA) + TITLE
    ensures frame == 12 || frame == 14 ==> Animated(TITLE, frame) == Bold(DARK_AQUA) + Bold(AQUA) + TITLE
    ensures frame == 13 ==> Animated(TITLE, frame) == Bold(DARK_AQUA) + Bold(DARK_AQUA) + TITLE
  {
    assert |TITLE| == 11;
  }

  // ---------------------------------------------------------------------
  // The sidebar

  class PlayerScoreboard {
    /** The lines the game has written since the last purge. */
    var elements: seq<string>
    /** What each of the fifteen slots shows; None for an empty slot. */
    const current: array<Option<string>>
    /** The scores of the backing objective, by entry. */
    var scores: map<string, int>
    /** The calls made on the backing scoreboard, oldest first. */
    var calls: seq<BoardCall>
    /** The objective's display name. */
    var displayName: string
    /** When the last animation cycle ended (epoch milliseconds). */
    var lastAnimationCycle: int
    /** The current animation frame. */
    var animationIndex: int

    ghost predicate Valid()
      reads this, current
    {
      current.Length == SLOTS && 0 <= animationIndex <= LAST_FRAME && DistinctSome(current[..])
    }

    /** A new board at time `now`: no lines, empty slots, the plain title, frame 0. */
    constructor (now: int)
      ensures Valid() && fresh(current)
      ensures elements == [] && current[..] == Layout([])
      ensures scores == map[] && calls == []
      ensures displayName == Bold(AQUA) + TITLE
      ensures lastAnimationCycle == now && animationIndex == 0
    {
      elements := [];
      current := new Option<string>[SLOTS](_ => None);
      scores := map[];
      calls := [];
      displayName := Bold(AQUA) + TITLE;
      lastAnimationCycle := now;
      animationIndex := 0;
    }

    /** `purge()`: forgets every line. */
    method Purge()
      modifies this`elements
      ensures elements == []
    {
      elements := [];
    }

    /** `space()`: a blank line. */
    method Space()
      modifies this`elements
      ensures elements == old(elements) + [" "]
    {
      elements := elements + [" "];
    }

    /** `write(content)`: the first sixteen characters of the content as a line. */
    method Write(content: string)
      modifies this`elements
      ensures elements == old(elements) + [Truncate(content)]
    {
      elements := elements + [content[..if |content| < MAX_LINE then |content| else MAX_LINE]];
    }

    /** `writeHead(title)`: a bold heading, through the same truncation. */
    method WriteHead(title: string)
      modifies this`elements
      ensures elements == old(elements) + [Truncate(BOLD + "» " + title)]
    {
      Write(BOLD + "» " + title);
    }

    /** `writeURL()`: a blank line, then the address in yellow, not truncated. */
    method WriteURL()
      modifies this`elements
      ensures elements == old(elements) + [" ", YELLOW + "hyleria.com"]
    {
      Space();
      elements := elements + [YELLOW + "hyleria.com"];
    }

    /** `nonNullSize()`: the number of occupied slots. */
    method NonNullSize() returns (n: nat)
      requires current.Length == SLOTS
      ensures n == CountSome(current[..], current.Length)
    {
      n := 0;
      for i := 0 to current.Length
        invariant n == CountSome(current[..], i)
      {
        if current[i].Some? {
          n := n + 1;
        }
      }
    }

    /**
     * `draw()`: de-duplicates the lines, resets the stale slots, scores the
     * changed ones, then re-ranks every visible line from the top.
     */
    method Draw()
      requires Valid()
      modifies this`scores, this`calls, current
      ensures Valid()
      ensures current[..] == Layout(Dedup(elements))
      ensures calls == old(calls) + DrawCalls(old(current[..]), Dedup(elements))
      ensures scores == ApplyCalls(old(scores), DrawCalls(old(current[..]), Dedup(elements)))
    {
      var drawn := Dedupe(elements);
      DedupDistinct(elements);
      Render(drawn);
    }

    /** Shows `drawn`, already de-duplicated, in the slots, through the board's calls. */
    method Render(drawn: seq<string>)
      requires Valid() && Distinct(drawn)
      modifies this`scores, this`calls, current
      ensures Valid()
      ensures current[..] == Layout(drawn)
      ensures calls == old(calls) + DrawCalls(old(current[..]), drawn)
      ensures scores == ApplyCalls(old(scores), DrawCalls(old(current[..]), drawn))
    {
      ghost var before := current[..];
      var adding, deleting := Diff(drawn);
      ClearStale(drawn, deleting, before);
      FillChanged(drawn, adding, before);
      var size := NonNullSize();
      CountSomeLayout(drawn, current.Length);
      assert size == Visible(drawn);
      RankLines(drawn, size);
      DrawCallsCompose(old(calls), old(scores), before, drawn);
      LayoutDistinct(drawn);
    }

    /** Which slots `draw()` clears and which it fills. */
    method Diff(drawn: seq<string>) returns (adding: set<nat>, deleting: set<nat>)
      requires current.Length == SLOTS
      ensures forall j: nat :: j in adding <==> j < SLOTS && Changed(current[..], drawn, j)
      ensures forall j: nat :: j in deleting <==> j < SLOTS && (Changed(current[..], drawn, j) || (j >= |drawn| && current[j].Some?))
    {
      adding := {};
      deleting := {};
      for i := 0 to current.Length
        invariant forall j: nat :: j in adding <==> j < i && Changed(current[..], drawn, j)
        invariant forall j: nat :: j in deleting <==> j < i && (Changed(current[..], drawn, j) || (j >= |drawn| && current[j].Some?))
      {
        if i >= |drawn| {
          if current[i].Some? {
            deleting := deleting + {i};
          }
        } else if current[i].None? || current[i].value != drawn[i] {
          deleting := deleting + {i};
          adding := adding + {i};
        }
      }
    }

    /** Makes one call on the backing scoreboard. */
    method Send(c: BoardCall)
      modifies this`scores, this`calls
      ensures calls == old(calls) + [c]
      ensures scores == ApplyCall(old(scores), c)
    {
      match c {
        case ResetScores(e) => scores := scores - {e};
        case SetScore(e, score) => scores := scores[e := score];
      }
      calls := calls + [c];
    }

    /** Resets the lines of the slots to clear, in ascending order, and empties those slots. */
    method ClearStale(drawn: seq<string>, deleting: set<nat>, ghost before: seq<Option<string>>)
      requires current.Length == SLOTS && before == current[..]
      requires forall j: nat :: j in deleting <==> j < SLOTS && (Changed(before, drawn, j) || (j >= |drawn| && before[j].Some?))
      modifies this`scores, this`calls, current
      ensures current[..] == Cleared(before, drawn)
      ensures calls == old(calls) + ResetCalls(before, drawn, |before|)
      ensures scores == ApplyCalls(old(scores), ResetCalls(before, drawn, |before|))
    {
      ghost var calls0, scores0 := calls, scores;
      ghost var cleared := Cleared(before, drawn);
      for i := 0 to current.Length
        invariant forall j :: 0 <= j < SLOTS ==> current[j] == if j < i then cleared[j] else before[j]
        invariant calls == calls0 + ResetCalls(before, drawn, i)
        invariant scores == ApplyCalls(scores0, ResetCalls(before, drawn, i))
      {
        ghost var earlier := ResetCalls(before, drawn, i);
        assert current[i] == before[i];
        assert (i in deleting && current[i].Some?) == Stale(before, drawn, i);
        if i in deleting && current[i].Some? {
          var line := current[i].value;
          var last := ResetScores(line);
          assert ResetCalls(before, drawn, i + 1) == earlier + [last];
          ApplyCallsSnoc(scores0, earlier, last);
          Send(last);
          current[i] := None;
        } else {
          assert ResetCalls(before, drawn, i + 1) == earlier;
        }
      }
    }

    /** Scores each slot to fill with `15 - i` and shows its new line, in ascending order. */
    method FillChanged(drawn: seq<string>, adding: set<nat>, ghost before: seq<Option<string>>)
      requires current.Length == SLOTS && |before| == SLOTS
      requires forall j: nat :: j in adding <==> j < SLOTS && Changed(before, drawn, j)
      requires current[..] == Cleared(before, drawn)
      modifies this`scores, this`calls, current
      ensures current[..] == Layout(drawn)
      ensures calls == old(calls) + AddCalls(before, drawn, |before|)
      ensures scores == ApplyCalls(old(scores), AddCalls(before, drawn, |before|))
    {
      ghost var calls0, scores0 := calls, scores;
      ghost var cleared, layout := Cleared(before, drawn), Layout(drawn);
      for i := 0 to current.Length
        invariant forall j :: 0 <= j < SLOTS ==> current[j] == if j < i then layout[j] else cleared[j]
        invariant calls == calls0 + AddCalls(before, drawn, i)
        invariant scores == ApplyCalls(scores0, AddCalls(before, drawn, i))
      {
        ghost var earlier := AddCalls(before, drawn, i);
        assert (i in adding) == Changed(before, drawn, i);
        if i in adding {
          var line := drawn[i];
          assert layout[i] == Some(line);
          var last := SetScore(line, SLOTS - i);
          assert AddCalls(before, drawn, i + 1) == earlier + [last];
          ApplyCallsSnoc(scores0, earlier, last);
          Send(last);
          current[i] := Some(line);
        } else {
          assert AddCalls(before, drawn, i + 1) == earlier;
          assert cleared[i] == layout[i];
        }
      }
    }

    /** Gives the line of slot i the score `size - i`, from the top. */
    method RankLines(drawn: seq<string>, size: nat)
      requires size <= |drawn|
      modifies this`scores, this`calls
      ensures calls == old(calls) + RankCalls(drawn, size, size)
      ensures scores == ApplyCalls(old(scores), RankCalls(drawn, size, size))
    {
      ghost var calls0, scores0 := calls, scores;
      for i := 0 to size
        invariant calls == calls0 + RankCalls(drawn, size, i)
        invariant scores == ApplyCalls(scores0, RankCalls(drawn, size, i))
      {
        ghost var earlier := RankCalls(drawn, size, i);
        var last := SetScore(drawn[i], size - i);
        assert RankCalls(drawn, size, i + 1) == earlier + [last];
        ApplyCallsSnoc(scores0, earlier, last);
        Send(last);
      }
    }

    /**
     * The de-duplicating loop of `draw()`: each line gets reset codes
     * appended while it equals a line already kept.
     */
    method Dedupe(lines: seq<string>) returns (drawn: seq<string>)
      ensures drawn == Dedup(lines)
    {
      drawn := [];
      for i := 0 to |lines|
        invariant drawn == Dedup(lines[..i])
      {
        var line := PadLine(lines[i], drawn);
        DedupSnoc(lines, i);
        drawn := drawn + [line];
      }
      assert lines[..|lines|] == lines;
    }

    /** One line of the de-duplicating loop: passes over the drawn lines until one matches nothing. */
    method PadLine(x: string, drawn: seq<string>) returns (line: string)
      ensures line == Unique(x, drawn)
    {
      line := x;
      ghost var m: nat := 0;
      while true
        invariant line == x + ResetRun(m)
        invariant forall j :: 0 <= j < m ==> x + ResetRun(j) in drawn
        decreases MaxLen(drawn) + 2 - |line|
      {
        var next, matched, c := ScanDrawn(line, drawn);
        if !matched {
          break;
        }
        PassExtendsRun(x, drawn, m, c, next);
        line, m := next, m + c;
      }
      PadCountIsFirstUnseen(x, drawn, m);
    }

    /**
     * One pass of the inner loop over the drawn lines: a reset code is
     * appended whenever the line equals the drawn line at hand.
     */
    method ScanDrawn(start: string, drawn: seq<string>) returns (line: string, matched: bool, ghost c: nat)
      ensures line == start + ResetRun(c)
      ensures matched <==> c > 0
      ensures forall j :: 0 <= j < c ==> start + ResetRun(j) in drawn
      ensures !matched ==> start !in drawn
    {
      line, matched, c := start, false, 0;
      for k := 0 to |drawn|
        invariant line == start + ResetRun(c)
        invariant matched <==> c > 0
        invariant forall j :: 0 <= j < c ==> start + ResetRun(j) in drawn
        invariant !matched ==> forall j :: 0 <= j < k ==> drawn[j] != start
      {
        if line == drawn[k] {
          assert start + ResetRun(c + 1) == line + RESET;
          line := line + RESET;
          matched := true;
          c := c + 1;
        }
      }
    }

    /** `addAnimation(to)`: the title text for the current frame. */
    method AddAnimation(to: string) returns (text: string)
      ensures text == Animated(to, animationIndex)
    {
      var working := Bold(DARK_AQUA);
      var idx := animationIndex;
      if idx == |to| + 1 || idx == |to| + 3 {
        working := working + (Bold(AQUA) + to);
      } else if idx == |to| + 2 || idx == |to| + 4 {
        working := working + (Bold(DARK_AQUA) + to);
      } else {
        var sweep := "";
        for i := 0 to |to|
          invariant sweep == Highlight(to[..i], idx)
        {
          assert to[..i + 1] == to[..i] + [to[i]];
          HighlightSnoc(to[..i], to[i], idx);
          if i == idx {
            sweep := sweep + (Bold(AQUA) + [to[i]] + Bold(DARK_AQUA));
          } else {
            sweep := sweep + [to[i]];
          }
        }
        assert to[..|to|] == to;
        working := working + sweep;
      }
      text := working;
    }

    /**
     * `animationTick()` at time `now`: nothing until 3200 ms have passed
     * since the last cycle; then the title shows the current frame and the
     * frame advances, wrapping after the last, which also restarts the wait.
     */
    method AnimationTick(now: int)
      requires Valid()
      modifies this`displayName, this`animationIndex, this`lastAnimationCycle
      ensures Valid()
      ensures !Elapsed(old(lastAnimationCycle), now, ANIMATION_PERIOD) ==>
        displayName == old(displayName) && animationIndex == old(animationIndex)
        && lastAnimationCycle == old(lastAnimationCycle)
      ensures Elapsed(old(lastAnimationCycle), now, ANIMATION_PERIOD) ==>
        displayName == Animated(TITLE, old(animationIndex))
        && animationIndex == NextFrame(old(animationIndex))
        && lastAnimationCycle == if old(animationIndex) == LAST_FRAME then now else old(lastAnimationCycle)
    {
      if !Elapsed(lastAnimationCycle, now, ANIMATION_PERIOD) {
        return;
      }
      displayName := AddAnimation(TITLE);
      var was := animationIndex;
      animationIndex := animationIndex + 1;
      if was == LAST_FRAME {
        animationIndex := 0;
        lastAnimationCycle := now;
      }
    }
  }

  /** The eight lines the UHC game writes to the sidebar. */
  const UHC_LINES: seq<string> :=
    [" ", BOLD + "» Today", RED + "Mar/15/17", " ", BOLD + "» Players", RED + "1", " ", YELLOW + "hyleria.com"]

  /** The UHC game's sidebar update: eight lines, then a draw. */
  method UpdateUhcScoreboard(board: PlayerScoreboard)
    requires board.Valid()
    modifies board, board.current
    ensures board.Valid()
    ensures board.elements == UHC_LINES
    ensures board.current[..] == Layout(Dedup(UHC_LINES))
  {
    board.Purge();
    board.Space();
    board.WriteHead("Today");
    assert Truncate(BOLD + "» " + "Today") == BOLD + "» Today";
    board.Write(RED + "Mar/15/17");
    assert Truncate(RED + "Mar/15/17") == RED + "Mar/15/17";
    board.Space();
    board.WriteHead("Players");
    assert Truncate(BOLD + "» " + "Players") == BOLD + "» Players";
    board.Write(RED + "1");
    assert Truncate(RED + "1") == RED + "1";
    board.WriteURL();
    assert board.elements == UHC_LINES;
    board.Draw();
  }
}
