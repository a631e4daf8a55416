/** The decision step of the main loop: the network's per-word scores are
    turned into an announced outcome and one LED command. */
module Decision {
  import opened Leds

  /** A score above this names a candidate word. */
  const High := 64
  /** A score below this counts as "absent". */
  const Low := -32

  /** An entry of the vocabulary table: a label and the output position it
      belongs to. */
  datatype WordEntry = WordEntry(word: string, pos: int)

  /** What the firmware announces. */
  datatype Outcome = Silence | Ni | Tak | Inshe

  /** A duty-cycle command for one LED. */
  datatype LedCommand = LedCommand(led: int, duty: int)

  /** Number of scores strictly below `t`. */
  function CountBelow(s: seq<int>, t: int): (n: nat)
    ensures n <= |s|
  {
    if s == [] then 0 else CountBelow(s[..|s| - 1], t) + (if s[|s| - 1] < t then 1 else 0)
  }

  /** Every score is below `t` exactly when all of them are counted. */
  lemma {:induction false} CountBelowAll(s: seq<int>, t: int)
    ensures CountBelow(s, t) == |s| <==> forall i :: 0 <= i < |s| ==> s[i] < t
  {
    if s != [] {
      var init := s[..|s| - 1];
      CountBelowAll(init, t);
      assert forall i :: 0 <= i < |init| ==> init[i] == s[i];
    }
  }

  /** `c` is the first position holding the largest score, and that score
      exceeds `High`. */
  ghost predicate IsBest(s: seq<int>, c: int)
  {
    && 0 <= c < |s| && s[c] > High
    && (forall i :: 0 <= i < |s| ==> s[i] <= s[c])
    && (forall i :: 0 <= i < c ==> s[i] < s[c])
  }

  /** At most one position is the best one. */
  lemma BestUnique(s: seq<int>, c: int, d: int)
    requires IsBest(s, c) && IsBest(s, d)
    ensures c == d
  {
  }

  /** `word` is the label of the last entry for position `c`, or "Nothing"
      when no entry has that position. */
  ghost predicate IsLabelOf(words: seq<WordEntry>, c: int, word: string)
  {
    if forall i :: 0 <= i < |words| ==> words[i].pos != c then word == "Nothing"
    else exists i :: 0 <= i < |words| && words[i].pos == c && word == words[i].word &&
           forall j :: i < j < |words| ==> words[j].pos != c
  }

  /** The LED command that goes with each outcome. */
  function Command(outcome: Outcome, leds: seq<Led>): (cmd: LedCommand)
    requires ValidLeds(leds)
    ensures 0 <= cmd.led < LedCount && InDutyRange(cmd.duty)
  {
    match outcome
    case Silence => LedCommand(2, leds[2].passive)
    case Ni => LedCommand(0, leds[0].active)
    case Tak => LedCommand(1, leds[1].active)
    case Inshe => LedCommand(2, leds[2].passive)
  }

  /** main.c:130-158: one pass over the scores finds the candidate `c` and
      counts the absent words, a second pass looks up the candidate's label,
      and the outcome is chosen: Silence when every score is absent (checked
      first), then "Ni", then "Tak", and Inshe for anything else. */
  method Decide(answer: seq<int>, words: seq<WordEntry>, leds: seq<Led>)
    returns (c: int, word: string, outcome: Outcome, command: LedCommand)
    requires |words| == |answer|
    requires ValidLeds(leds)
    ensures c == -1 <==> forall i :: 0 <= i < |answer| ==> answer[i] <= High
    ensures c != -1 ==> IsBest(answer, c)
    ensures IsLabelOf(words, c, word)
    ensures outcome == Silence <==> forall i :: 0 <= i < |answer| ==> answer[i] < Low
    ensures outcome == Ni <==> outcome != Silence && word == "Ni"
    ensures outcome == Tak <==> outcome != Silence && word == "Tak"
    ensures outcome == Inshe <==> outcome != Silence && word != "Ni" && word != "Tak"
    ensures command == Command(outcome, leds)
  {
    c := -1;
    var max := 0;
    var lower := 0;
    for i := 0 to |answer|
      invariant c == -1 <==> forall k :: 0 <= k < i ==> answer[k] <= High
      invariant c == -1 ==> max == 0
      invariant c != -1 ==> IsBest(answer[..i], c) && max == answer[c]
      invariant lower == CountBelow(answer[..i], Low)
    {
      assert answer[..i + 1][..i] == answer[..i];
      if answer[i] > High && answer[i] > max {
        c := i;
        max := answer[i];
      } else if answer[i] < Low {
        lower := lower + 1;
      }
    }
    assert answer[..|answer|] == answer;

    word := "Nothing";
    ghost var last := -1;
    for i := 0 to |words|
      invariant -1 <= last < i
      invariant last == -1 ==> word == "Nothing" && forall k :: 0 <= k < i ==> words[k].pos != c
      invariant last != -1 ==> words[last].pos == c && word == words[last].word
      invariant forall k :: last < k < i ==> words[k].pos != c
    {
      if words[i].pos == c {
        word := words[i].word;
        last := i;
      }
    }

    CountBelowAll(answer, Low);
    if |words| == lower {
      outcome := Silence;
      command := LedCommand(2, leds[2].passive);
    } else if word == "Ni" {
      outcome := Ni;
      command := LedCommand(0, leds[0].active);
    } else if word == "Tak" {
      outcome := Tak;
      command := LedCommand(1, leds[1].active);
    } else {
      outcome := Inshe;
      command := LedCommand(2, leds[2].passive);
    }
  }
}
