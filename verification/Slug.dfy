/**
 A label made into an identifier. How letters outside ASCII are lower-cased is a parameter; all that is asked of it is
 to leave alone what is already a label's character.
 */
module Slug {
  import opened Options
  import opened Sequences

  predicate IsLetter(c: char) {
    'a' <= c <= 'z' || '0' <= c <= '9'
  }

  predicate IsSeparator(c: char) {
    c == '.' || c == '_' || c == '-'
  }

  predicate IsPlain(c: char) {
    IsLetter(c) || IsSeparator(c)
  }

  ghost predicate AllPlain(s: string) {
    forall k :: 0 <= k < |s| ==> IsPlain(s[k])
  }

  // ------------------------------------------------------------------ the rewrites

  /** Without leading and trailing characters up to a space. */
  function Trim(s: string): string
    decreases |s|
  {
    if s != "" && s[0] <= ' ' then Trim(s[1..])
    else if s != "" && s[|s| - 1] <= ' ' then Trim(s[..|s| - 1])
    else s
  }

  /** The length of the run at the start of `s` of characters that are not plain. */
  function OtherRun(s: string): (n: nat)
    ensures n <= |s| && (forall k :: 0 <= k < n ==> !IsPlain(s[k])) && (n < |s| ==> IsPlain(s[n]))
  {
    if s == "" || IsPlain(s[0]) then 0 else 1 + OtherRun(s[1..])
  }

  /** A `-` for each stretch of characters that are not plain. */
  function OthersReplaced(s: string): string {
    if s == "" then ""
    else if IsPlain(s[0]) then [s[0]] + OthersReplaced(s[1..])
    else "-" + OthersReplaced(s[OtherRun(s)..])
  }

  function SeparatorRun(s: string): (n: nat)
    ensures n <= |s| && (forall k :: 0 <= k < n ==> IsSeparator(s[k])) && (n < |s| ==> !IsSeparator(s[n]))
  {
    if s == "" || !IsSeparator(s[0]) then 0 else 1 + SeparatorRun(s[1..])
  }

  /** A `-` for each stretch of separators longer than one. */
  function RunsFolded(s: string): string {
    if s == "" then ""
    else if SeparatorRun(s) >= 2 then "-" + RunsFolded(s[SeparatorRun(s)..])
    else [s[0]] + RunsFolded(s[1..])
  }

  /** No separator first or last. */
  function EdgesDropped(s: string): string
    decreases |s|
  {
    if s != "" && IsSeparator(s[0]) then EdgesDropped(s[1..])
    else if s != "" && IsSeparator(s[|s| - 1]) then EdgesDropped(s[..|s| - 1])
    else s
  }

  function OfLowered(lowered: string): string {
    EdgesDropped(RunsFolded(OthersReplaced(lowered)))
  }

  /** `Slug.of`: the label, or none for an absent value or one with nothing usable in it. */
  function Of(raw: Option<string>, lower: string -> string): Option<string> {
    if raw.None? then None
    else
      var slug := OfLowered(lower(Trim(raw.value)));
      if slug == "" then None else Some(slug)
  }

  // ------------------------------------------------------------------ the pattern

  /** `[a-z0-9]+` */
  predicate IsWord(s: string) {
    s != "" && forall k :: 0 <= k < |s| ==> IsLetter(s[k])
  }

  /** `PATTERN`: words joined by single separators. */
  ghost predicate Matches(s: string)
    decreases |s|
  {
    IsWord(s) || exists k :: 0 < k < |s| && IsWord(s[..k]) && IsSeparator(s[k]) && Matches(s[k + 1..])
  }

  /** The same, character by character: plain, letters at both ends, no two separators side by side. */
  ghost predicate IsLabel(s: string) {
    s != "" && AllPlain(s) && IsLetter(s[0]) && IsLetter(s[|s| - 1]) && NoDoubles(s)
  }

  ghost predicate DoubledAt(s: string, k: int) {
    0 < k < |s| && IsSeparator(s[k - 1]) && IsSeparator(s[k])
  }

  ghost predicate NoDoubles(s: string) {
    forall k :: !DoubledAt(s, k)
  }

  lemma WordAndLabelIsLabel(s: string, k: nat)
    requires 0 < k < |s| && IsWord(s[..k]) && IsSeparator(s[k]) && IsLabel(s[k + 1..])
    ensures IsLabel(s)
  {
    var word, tail := s[..k], s[k + 1..];
    assert s == word + [s[k]] + tail;
    forall i ensures !DoubledAt(s, i) {
      assert !DoubledAt(tail, i - k - 1);
    }
  }

  lemma WordIsLabel(s: string)
    requires IsWord(s)
    ensures IsLabel(s)
  {
  }

  lemma {:induction false} MatchesIsLabel(s: string)
    requires Matches(s)
    ensures IsLabel(s)
    decreases |s|
  {
    if IsWord(s) {
      WordIsLabel(s);
    } else {
      var k :| 0 < k < |s| && IsWord(s[..k]) && IsSeparator(s[k]) && Matches(s[k + 1..]);
      MatchesIsLabel(s[k + 1..]);
      WordAndLabelIsLabel(s, k);
    }
  }

  /** The length of the word at the start. */
  function WordRun(s: string): (n: nat)
    ensures n <= |s| && (forall k :: 0 <= k < n ==> IsLetter(s[k])) && (n < |s| ==> !IsLetter(s[n]))
  {
    if s == "" || !IsLetter(s[0]) then 0 else 1 + WordRun(s[1..])
  }

  lemma {:induction false} LabelMatches(s: string)
    requires IsLabel(s)
    ensures Matches(s)
    decreases |s|
  {
    var k := WordRun(s);
    if k == |s| {
      assert IsWord(s);
    } else {
      LabelAfterASeparator(s, k);
      LabelMatches(s[k + 1..]);
      WordsJoinedMatch(s, k);
    }
  }

  lemma WordsJoinedMatch(s: string, k: nat)
    requires k < |s| && IsLetter(s[0]) && (forall i :: 0 <= i < k ==> IsLetter(s[i])) && IsSeparator(s[k]) && Matches(s[k + 1..])
    ensures Matches(s)
  {
    assert IsWord(s[..k]);
  }

  lemma LabelAfterASeparator(s: string, k: nat)
    requires IsLabel(s) && k < |s| && !IsLetter(s[k])
    ensures IsSeparator(s[k]) && IsLabel(s[k + 1..])
  {
    assert IsPlain(s[k]);
    assert !DoubledAt(s, k + 1);
    assert IsPlain(s[k + 1]);
    PartIsPlain(s, k + 1, |s|);
    assert s[k + 1..|s|] == s[k + 1..];
  }

  // ------------------------------------------------------------------ what the rewrites keep

  /** The letters and digits of a text, in order. */
  ghost function Letters(s: string): string {
    if s == "" then "" else LetterIn(s[0]) + Letters(s[1..])
  }

  ghost function LetterIn(c: char): string {
    if IsLetter(c) then [c] else ""
  }

  lemma LettersOfOneMore(c: char, s: string)
    ensures Letters([c] + s) == LetterIn(c) + Letters(s)
  {
    assert ([c] + s)[1..] == s;
  }

  lemma {:induction false} LettersSplit(s: string, k: nat)
    requires k <= |s|
    ensures Letters(s) == Letters(s[..k]) + Letters(s[k..])
  {
    if k == 0 {
      assert s[..0] == "" && s[0..] == s;
    } else {
      LettersSplit(s[1..], k - 1);
      assert s[..k][1..] == s[1..][..k - 1] && s[1..][k - 1..] == s[k..];
      ConcatAssociates(LetterIn(s[0]), Letters(s[1..k]), Letters(s[k..]));
    }
  }

  lemma {:induction false} NoLetters(s: string)
    requires forall k :: 0 <= k < |s| ==> !IsLetter(s[k])
    ensures Letters(s) == ""
  {
    if s != "" {
      assert forall k :: 0 <= k < |s[1..]| ==> s[1..][k] == s[k + 1];
      NoLetters(s[1..]);
    }
  }

  lemma LettersPastARun(s: string, n: nat)
    requires n <= |s| && forall k :: 0 <= k < n ==> !IsLetter(s[k])
    ensures Letters(s[n..]) == Letters(s)
  {
    LettersSplit(s, n);
    NoLetters(s[..n]);
  }

  lemma {:induction false} OthersReplacedKeeps(s: string)
    ensures AllPlain(OthersReplaced(s)) && Letters(OthersReplaced(s)) == Letters(s)
    decreases |s|
  {
    if s != "" {
      if IsPlain(s[0]) {
        OthersReplacedKeeps(s[1..]);
        LettersOfOneMore(s[0], OthersReplaced(s[1..]));
      } else {
        var n := OtherRun(s);
        OthersReplacedKeeps(s[n..]);
        LettersPastARun(s, n);
        LettersOfOneMore('-', OthersReplaced(s[n..]));
      }
    }
  }

  lemma NoDoublesAfter(c: char, s: string)
    requires NoDoubles(s) && (IsSeparator(c) && s != "" ==> !IsSeparator(s[0]))
    ensures NoDoubles([c] + s)
  {
    forall k ensures !DoubledAt([c] + s, k) {
      assert !DoubledAt(s, k - 1);
    }
  }

  lemma {:induction false} RunsFoldedKeeps(s: string)
    requires AllPlain(s)
    ensures var r := RunsFolded(s);
            && AllPlain(r) && Letters(r) == Letters(s) && NoDoubles(r)
            && (r == "" <==> s == "") && (s != "" ==> IsSeparator(r[0]) == IsSeparator(s[0]))
    decreases |s|
  {
    if s != "" {
      var n := SeparatorRun(s);
      if n >= 2 {
        RunsFoldedKeeps(s[n..]);
        NoDoublesAfter('-', RunsFolded(s[n..]));
        LettersPastARun(s, n);
        LettersOfOneMore('-', RunsFolded(s[n..]));
      } else {
        RunsFoldedKeeps(s[1..]);
        NoDoublesAfter(s[0], RunsFolded(s[1..]));
        LettersOfOneMore(s[0], RunsFolded(s[1..]));
      }
    }
  }

  lemma {:induction false} EdgesDroppedKeeps(s: string)
    requires AllPlain(s) && NoDoubles(s)
    ensures var r := EdgesDropped(s);
            AllPlain(r) && Letters(r) == Letters(s) && NoDoubles(r) && (r != "" ==> IsLabel(r))
    decreases |s|
  {
    if s != "" && IsSeparator(s[0]) {
      PartIsPlain(s, 1, |s|);
      LettersPastARun(s, 1);
      assert s[1..|s|] == s[1..];
      EdgesDroppedKeeps(s[1..]);
    } else if s != "" && IsSeparator(s[|s| - 1]) {
      PartIsPlain(s, 0, |s| - 1);
      LettersBeforeTheLast(s);
      assert s[0..|s| - 1] == s[..|s| - 1];
      EdgesDroppedKeeps(s[..|s| - 1]);
    }
  }

  lemma PartIsPlain(s: string, from: nat, to: nat)
    requires AllPlain(s) && NoDoubles(s) && from <= to <= |s|
    ensures AllPlain(s[from..to]) && NoDoubles(s[from..to])
  {
    forall k ensures !DoubledAt(s[from..to], k) {
      assert !DoubledAt(s, k + from);
    }
  }

  lemma LettersBeforeTheLast(s: string)
    requires s != "" && !IsLetter(s[|s| - 1])
    ensures Letters(s[..|s| - 1]) == Letters(s)
  {
    LettersSplit(s, |s| - 1);
    NoLetters(s[|s| - 1..]);
  }

  // ------------------------------------------------------------------ what a label is

  lemma OfLoweredIsALabel(lowered: string)
    ensures Letters(OfLowered(lowered)) == Letters(lowered)
    ensures OfLowered(lowered) != "" ==> Matches(OfLowered(lowered))
    ensures OfLowered(lowered) == "" <==> Letters(lowered) == ""
  {
    OthersReplacedKeeps(lowered);
    RunsFoldedKeeps(OthersReplaced(lowered));
    EdgesDroppedKeeps(RunsFolded(OthersReplaced(lowered)));
    if OfLowered(lowered) != "" {
      LabelMatches(OfLowered(lowered));
    }
  }

  /** Every accepted value matches the pattern and keeps the letters and digits; a present value is refused exactly when it has none. */
  lemma AcceptedMatches(raw: string, lower: string -> string)
    ensures var r := Of(Some(raw), lower);
            && (r.Some? ==> Matches(r.value) && Letters(r.value) == Letters(lower(Trim(raw))))
            && (r.None? <==> Letters(lower(Trim(raw))) == "")
  {
    OfLoweredIsALabel(lower(Trim(raw)));
  }

  /** What an accepted value is made of. */
  lemma AcceptedCharacters(raw: string, lower: string -> string)
    ensures var r := Of(Some(raw), lower);
            r.Some? ==>
              && r.value != ""
              && (forall k :: 0 <= k < |r.value| ==> 'a' <= r.value[k] <= 'z' || '0' <= r.value[k] <= '9' || r.value[k] in "._-")
              && r.value[0] !in "._-" && r.value[|r.value| - 1] !in "._-"
              && (forall k :: 0 < k < |r.value| && r.value[k] in "._-" ==> r.value[k - 1] !in "._-")
  {
    AcceptedMatches(raw, lower);
    var r := Of(Some(raw), lower);
    if r.Some? {
      MatchesIsLabel(r.value);
      forall k | 0 < k < |r.value| && r.value[k] in "._-" ensures r.value[k - 1] !in "._-" {
        assert !DoubledAt(r.value, k) && IsPlain(r.value[k - 1]) && IsPlain(r.value[k]);
      }
    }
  }

  lemma {:induction false} PlainIsNotReplaced(s: string)
    requires AllPlain(s)
    ensures OthersReplaced(s) == s
  {
    if s != "" {
      PlainIsNotReplaced(s[1..]);
    }
  }

  lemma {:induction false} NothingToFold(s: string)
    requires NoDoubles(s)
    ensures RunsFolded(s) == s
  {
    if s != "" {
      assert !DoubledAt(s, 1);
      forall k ensures !DoubledAt(s[1..], k) {
        assert !DoubledAt(s, k + 1);
      }
      NothingToFold(s[1..]);
    }
  }

  /** Lower-casing leaves a text of plain characters as it is. */
  ghost predicate KeepsPlain(lower: string -> string) {
    forall s :: AllPlain(s) ==> lower(s) == s
  }

  /** Every value that matches is returned unchanged. */
  lemma MatchingIsUnchanged(value: string, lower: string -> string)
    requires Matches(value) && KeepsPlain(lower)
    ensures Of(Some(value), lower) == Some(value)
  {
    MatchesIsLabel(value);
    assert Trim(value) == value;
    PlainIsNotReplaced(value);
    NothingToFold(value);
  }

  /** Making a label of a label changes nothing. */
  lemma OfIsIdempotent(raw: Option<string>, lower: string -> string)
    requires KeepsPlain(lower) && Of(raw, lower).Some?
    ensures Of(Of(raw, lower), lower) == Of(raw, lower)
  {
    AcceptedMatches(raw.value, lower);
    MatchingIsUnchanged(Of(raw, lower).value, lower);
  }

  // ------------------------------------------------------------------ what the rewrites come to

  ghost predicate NoneIsLetter(s: string) {
    forall k :: 0 <= k < |s| ==> !IsLetter(s[k])
  }

  /** The length of what stands before the first letter. */
  function GapRun(s: string): (n: nat)
    ensures n <= |s| && (forall k :: 0 <= k < n ==> !IsLetter(s[k])) && (n < |s| ==> IsLetter(s[n]))
  {
    if s == "" || IsLetter(s[0]) then 0 else 1 + GapRun(s[1..])
  }

  /** What joins two words: the separator that stood between them, if that was all, and otherwise a `-`. */
  function Bridge(gap: string): string {
    if |gap| == 1 && IsSeparator(gap[0]) then gap else "-"
  }

  /** The words of a text, joined by what stood between them. */
  function Joined(s: string): string
    decreases |s|
  {
    var lead := GapRun(s);
    if lead == |s| then ""
    else if lead > 0 then Joined(s[lead..])
    else
      var k := WordRun(s);
      var rest := s[k..];
      var g := GapRun(rest);
      if g == |rest| then s[..k] else s[..k] + Bridge(rest[..g]) + Joined(rest[g..])
  }

  lemma JoinedSkips(gap: string, t: string)
    requires NoneIsLetter(gap) && (t != "" ==> IsLetter(t[0]))
    ensures Joined(gap + t) == Joined(t)
  {
    var s := gap + t;
    RunsOf(gap, t);
    if gap == "" {
      assert s == t;
    } else {
      assert s[|gap|..] == t;
    }
  }

  /** Runs end where the text changes kind. */
  lemma RunsOf(gap: string, t: string)
    requires NoneIsLetter(gap) && (t != "" ==> IsLetter(t[0]))
    ensures GapRun(gap + t) == |gap|
  {
    var s := gap + t;
    assert forall k :: 0 <= k < |gap| ==> s[k] == gap[k];
    assert t != "" ==> s[|gap|] == t[0];
  }

  lemma WordRunOf(word: string, rest: string)
    requires IsWord(word) && (rest != "" ==> !IsLetter(rest[0]))
    ensures WordRun(word + rest) == |word| && GapRun(word + rest) == 0
  {
    var s := word + rest;
    assert forall k :: 0 <= k < |word| ==> s[k] == word[k];
    assert rest != "" ==> s[|word|] == rest[0];
  }

  lemma JoinedOfWordAndGap(word: string, gap: string)
    requires IsWord(word) && NoneIsLetter(gap)
    ensures Joined(word + gap) == word
  {
    var s := word + gap;
    WordRunOf(word, gap);
    RunsOf(gap, "");
    assert gap + "" == gap && s[|word|..] == gap && s[..|word|] == word;
  }

  lemma JoinedOfParts(word: string, gap: string, t: string)
    requires IsWord(word) && gap != "" && NoneIsLetter(gap) && t != "" && IsLetter(t[0])
    ensures Joined(word + (gap + t)) == word + Bridge(gap) + Joined(t)
  {
    WordRunOf(word, gap + t);
    RunsOf(gap, t);
    PartsOfConcat(word, gap + t);
    PartsOfConcat(gap, t);
    JoinedAt(word + (gap + t), gap + t, |word|, |gap|);
  }

  lemma JoinedAt(s: string, rest: string, k: nat, g: nat)
    requires GapRun(s) == 0 && 0 < k == WordRun(s) && rest == s[k..] && g == GapRun(rest) < |rest|
    ensures Joined(s) == s[..k] + Bridge(rest[..g]) + Joined(rest[g..])
  {
  }

  /** A text that begins with a letter, taken apart. */
  lemma TakeApart(s: string) returns (word: string, gap: string, t: string)
    requires s != "" && IsLetter(s[0])
    ensures s == word + (gap + t) && IsWord(word) && NoneIsLetter(gap) && |t| < |s|
    ensures t != "" ==> IsLetter(t[0]) && gap != ""
  {
    var k := WordRun(s);
    var g := GapRun(s[k..]);
    word, gap, t := s[..k], s[k..][..g], s[k..][g..];
    PartsAreSo(s, k);
    SplitTwice(s, k, g);
  }

  lemma PartsAreSo(s: string, k: nat)
    requires s != "" && IsLetter(s[0]) && k == WordRun(s)
    ensures var rest := s[k..];
            var g := GapRun(rest);
            && IsWord(s[..k]) && NoneIsLetter(rest[..g]) && |rest[g..]| < |s|
            && (rest[g..] != "" ==> IsLetter(rest[g..][0]) && rest[..g] != "")
  {
    var rest := s[k..];
    assert rest != "" ==> rest[0] == s[k];
  }

  lemma TakeOffLead(s: string) returns (gap: string, t: string)
    requires s != "" && !IsLetter(s[0])
    ensures s == gap + t && gap != "" && NoneIsLetter(gap) && |t| < |s| && (t != "" ==> IsLetter(t[0]))
  {
    var g := GapRun(s);
    gap, t := s[..g], s[g..];
    SplitAt(s, g);
  }

  // Each rewrite keeps the words and what joins them.

  lemma OtherRunOf(a: string, b: string)
    requires b != "" ==> IsPlain(b[0])
    ensures OtherRun(a + b) == OtherRun(a)
  {
    var s, n := a + b, OtherRun(a);
    assert forall k :: 0 <= k < |a| ==> s[k] == a[k];
    assert b != "" ==> s[|a|] == b[0];
  }

  lemma {:induction false} OthersReplacedSplits(a: string, b: string)
    requires b != "" ==> IsLetter(b[0])
    ensures OthersReplaced(a + b) == OthersReplaced(a) + OthersReplaced(b)
    decreases |a|
  {
    if a == "" {
      assert a + b == b;
    } else {
      var n := if IsPlain(a[0]) then 1 else OtherRun(a);
      var first := if IsPlain(a[0]) then [a[0]] else "-";
      OtherRunOf(a, b);
      OthersReplacedSplits(a[n..], b);
      DropOfConcat(a, b, n);
      assert (a + b)[0] == a[0];
      ConcatAssociates(first, OthersReplaced(a[n..]), OthersReplaced(b));
    }
  }

  lemma SeparatorRunOf(a: string, b: string)
    requires b != "" ==> !IsSeparator(b[0])
    ensures SeparatorRun(a + b) == SeparatorRun(a)
  {
    var s, n := a + b, SeparatorRun(a);
    assert forall k :: 0 <= k < |a| ==> s[k] == a[k];
    assert b != "" ==> s[|a|] == b[0];
  }

  lemma {:induction false} RunsFoldedSplits(a: string, b: string)
    requires b != "" ==> IsLetter(b[0])
    ensures RunsFolded(a + b) == RunsFolded(a) + RunsFolded(b)
    decreases |a|
  {
    if a == "" {
      assert a + b == b;
    } else {
      var n := if SeparatorRun(a) >= 2 then SeparatorRun(a) else 1;
      var first := if SeparatorRun(a) >= 2 then "-" else [a[0]];
      SeparatorRunOf(a, b);
      RunsFoldedSplits(a[n..], b);
      DropOfConcat(a, b, n);
      assert (a + b)[0] == a[0];
      ConcatAssociates(first, RunsFolded(a[n..]), RunsFolded(b));
    }
  }

  lemma WordIsKept(word: string)
    requires IsWord(word)
    ensures OthersReplaced(word) == word && RunsFolded(word) == word
  {
    PlainIsNotReplaced(word);
    WordIsLabel(word);
    NothingToFold(word);
  }

  lemma NoLetterReplaced(gap: string)
    requires NoneIsLetter(gap)
    ensures NoneIsLetter(OthersReplaced(gap)) && (gap != "" ==> OthersReplaced(gap) != "" && Bridge(OthersReplaced(gap)) == Bridge(gap))
  {
    OthersReplacedKeeps(gap);
    NoLetters(gap);
    LettersNone(OthersReplaced(gap));
    if gap != "" {
      var n := if IsPlain(gap[0]) then 1 else OtherRun(gap);
      var rest := gap[n..];
      assert OthersReplaced(gap) == (if IsPlain(gap[0]) then [gap[0]] else "-") + OthersReplaced(rest);
      assert rest != "" ==> OthersReplaced(rest) != "";
      assert rest == "" ==> OthersReplaced(rest) == "";
    }
  }

  lemma {:induction false} LettersNone(s: string)
    requires Letters(s) == ""
    ensures NoneIsLetter(s)
  {
    if s != "" {
      LettersNone(s[1..]);
      assert forall k :: 1 <= k < |s| ==> s[k] == s[1..][k - 1];
    }
  }

  lemma {:induction false} SeparatorsFold(gap: string)
    requires gap != "" && forall k :: 0 <= k < |gap| ==> IsSeparator(gap[k])
    ensures RunsFolded(gap) == if |gap| == 1 then gap else "-"
  {
    assert SeparatorRun(gap) == |gap|;
    assert gap[|gap|..] == "";
    if |gap| == 1 {
      assert gap == [gap[0]] + "";
    }
  }

  lemma GapIsSeparators(gap: string)
    requires AllPlain(gap) && NoneIsLetter(gap)
    ensures forall k :: 0 <= k < |gap| ==> IsSeparator(gap[k])
  {
    forall k | 0 <= k < |gap| ensures IsSeparator(gap[k]) {
      assert IsPlain(gap[k]);
    }
  }

  lemma {:induction false} ReplacingKeepsJoined(s: string)
    ensures Joined(OthersReplaced(s)) == Joined(s)
    decreases |s|
  {
    if s != "" {
      if IsLetter(s[0]) {
        var word, gap, t := TakeApart(s);
        ReplacedParts(word, gap, t);
        NoLetterReplaced(gap);
        if t == "" {
          JoinedOfWordAndGap(word, gap);
          JoinedOfWordAndGap(word, OthersReplaced(gap));
          assert gap + t == gap && OthersReplaced(gap) + OthersReplaced(t) == OthersReplaced(gap);
        } else {
          ReplacingKeepsJoined(t);
          JoinedOfParts(word, gap, t);
          JoinedOfParts(word, OthersReplaced(gap), OthersReplaced(t));
        }
      } else {
        var gap, t := TakeOffLead(s);
        ReplacingKeepsJoined(t);
        OthersReplacedSplits(gap, t);
        NoLetterReplaced(gap);
        JoinedSkips(gap, t);
        JoinedSkips(OthersReplaced(gap), OthersReplaced(t));
      }
    }
  }

  lemma ReplacedParts(word: string, gap: string, t: string)
    requires IsWord(word) && NoneIsLetter(gap) && (t != "" ==> IsLetter(t[0]))
    ensures OthersReplaced(word + (gap + t)) == word + (OthersReplaced(gap) + OthersReplaced(t))
  {
    OthersReplacedSplits(word + gap, t);
    ConcatAssociates(word, gap, t);
    WordThenReplaced(word, gap);
    ConcatAssociates(word, OthersReplaced(gap), OthersReplaced(t));
  }

  lemma {:induction false} WordThenReplaced(word: string, rest: string)
    requires forall k :: 0 <= k < |word| ==> IsLetter(word[k])
    ensures OthersReplaced(word + rest) == word + OthersReplaced(rest)
  {
    if word == "" {
      assert word + rest == rest;
    } else {
      var tail := word[1..];
      WordThenReplaced(tail, rest);
      assert (word + rest)[0] == word[0] && (word + rest)[1..] == tail + rest;
      ConcatAssociates([word[0]], tail, OthersReplaced(rest));
      assert word == [word[0]] + tail;
    }
  }

  lemma {:induction false} WordThenFolded(word: string, rest: string)
    requires forall k :: 0 <= k < |word| ==> IsLetter(word[k])
    ensures RunsFolded(word + rest) == word + RunsFolded(rest)
  {
    if word == "" {
      assert word + rest == rest;
    } else {
      var tail := word[1..];
      WordThenFolded(tail, rest);
      assert (word + rest)[0] == word[0] && (word + rest)[1..] == tail + rest;
      assert SeparatorRun(word + rest) == 0;
      ConcatAssociates([word[0]], tail, RunsFolded(rest));
      assert word == [word[0]] + tail;
    }
  }

  lemma FoldedParts(word: string, gap: string, t: string)
    requires IsWord(word) && NoneIsLetter(gap) && (t != "" ==> IsLetter(t[0]))
    ensures RunsFolded(word + (gap + t)) == word + (RunsFolded(gap) + RunsFolded(t))
  {
    RunsFoldedSplits(word + gap, t);
    ConcatAssociates(word, gap, t);
    WordThenFolded(word, gap);
    ConcatAssociates(word, RunsFolded(gap), RunsFolded(t));
  }

  lemma GapFolded(gap: string)
    requires AllPlain(gap) && NoneIsLetter(gap)
    ensures NoneIsLetter(RunsFolded(gap)) && (gap != "" ==> RunsFolded(gap) != "" && Bridge(RunsFolded(gap)) == Bridge(gap))
  {
    if gap != "" {
      GapIsSeparators(gap);
      SeparatorsFold(gap);
    }
  }

  lemma {:induction false} FoldingKeepsJoined(s: string)
    requires AllPlain(s)
    ensures Joined(RunsFolded(s)) == Joined(s)
    decreases |s|
  {
    if s != "" {
      if IsLetter(s[0]) {
        var word, gap, t := TakeApart(s);
        PlainParts(word, gap, t);
        FoldedParts(word, gap, t);
        GapFolded(gap);
        if t == "" {
          JoinedOfWordAndGap(word, gap);
          JoinedOfWordAndGap(word, RunsFolded(gap));
          assert gap + t == gap && RunsFolded(gap) + RunsFolded(t) == RunsFolded(gap);
        } else {
          FoldingKeepsJoined(t);
          FoldedBegins(t);
          JoinedOfParts(word, gap, t);
          JoinedOfParts(word, RunsFolded(gap), RunsFolded(t));
        }
      } else {
        var gap, t := TakeOffLead(s);
        PlainParts("", gap, t);
        assert "" + (gap + t) == gap + t;
        FoldingKeepsJoined(t);
        RunsFoldedSplits(gap, t);
        GapFolded(gap);
        FoldedBegins(t);
        JoinedSkips(gap, t);
        JoinedSkips(RunsFolded(gap), RunsFolded(t));
      }
    }
  }

  lemma FoldedBegins(t: string)
    requires t != "" ==> IsLetter(t[0])
    ensures t != "" ==> RunsFolded(t) != "" && RunsFolded(t)[0] == t[0]
    ensures t == "" ==> RunsFolded(t) == ""
  {
    assert t != "" ==> SeparatorRun(t) == 0;
  }

  lemma PlainParts(word: string, gap: string, t: string)
    requires AllPlain(word + (gap + t))
    ensures AllPlain(gap) && AllPlain(t)
  {
    var s := word + (gap + t);
    forall k | 0 <= k < |gap| ensures IsPlain(gap[k]) {
      assert s[|word| + k] == gap[k];
    }
    forall k | 0 <= k < |t| ensures IsPlain(t[k]) {
      assert s[|word| + |gap| + k] == t[k];
    }
  }

  lemma {:induction false} JoinedWithoutTheLast(s: string)
    requires s != "" && !IsLetter(s[|s| - 1])
    ensures Joined(s[..|s| - 1]) == Joined(s)
    decreases |s|
  {
    var front, last := s[..|s| - 1], s[|s| - 1];
    if IsLetter(s[0]) {
      var word, gap, t := TakeApart(s);
      LastOfParts(word, gap, t);
      if t == "" {
        JoinedOfWordAndGap(word, gap);
        JoinedOfWordAndGap(word, gap[..|gap| - 1]);
        assert gap + t == gap;
      } else {
        JoinedWithoutTheLast(t);
        JoinedOfParts(word, gap, t);
        JoinedOfParts(word, gap, t[..|t| - 1]);
      }
    } else {
      var gap, t := TakeOffLead(s);
      if t == "" {
        assert s == gap && NoneIsLetter(front);
        JoinedSkips(s, "");
        JoinedSkips(front, "");
        assert s + "" == s && front + "" == front;
      } else {
        assert t[|t| - 1] == last && front == gap + t[..|t| - 1];
        JoinedWithoutTheLast(t);
        JoinedSkips(gap, t);
        JoinedSkips(gap, t[..|t| - 1]);
      }
    }
  }

  lemma LastOfParts(word: string, gap: string, t: string)
    requires IsWord(word) && NoneIsLetter(gap) && (t != "" ==> IsLetter(t[0]) && gap != "")
    requires var s := word + (gap + t); !IsLetter(s[|s| - 1])
    ensures var s := word + (gap + t);
            if t == "" then gap != "" && s[..|s| - 1] == word + gap[..|gap| - 1]
            else |t| > 1 && !IsLetter(t[|t| - 1]) && s[..|s| - 1] == word + (gap + t[..|t| - 1])
  {
    var s := word + (gap + t);
    if t != "" {
      assert s[|s| - 1] == t[|t| - 1];
    } else {
      assert s == word + gap;
    }
  }

  lemma {:induction false} DroppingKeepsJoined(s: string)
    ensures Joined(EdgesDropped(s)) == Joined(s)
    decreases |s|
  {
    if s != "" && IsSeparator(s[0]) {
      DroppingKeepsJoined(s[1..]);
      JoinedWithoutTheFirst(s);
    } else if s != "" && IsSeparator(s[|s| - 1]) {
      DroppingKeepsJoined(s[..|s| - 1]);
      JoinedWithoutTheLast(s);
    }
  }

  lemma JoinedWithoutTheFirst(s: string)
    requires s != "" && !IsLetter(s[0])
    ensures Joined(s[1..]) == Joined(s)
  {
    var gap, t := TakeOffLead(s);
    JoinedSkips(gap, t);
    DropOfConcat(gap, t, 1);
    JoinedSkips(gap[1..], t);
  }

  lemma {:induction false} LabelIsJoined(s: string)
    requires IsLabel(s)
    ensures Joined(s) == s
    decreases |s|
  {
    var k := WordRun(s);
    if k == |s| {
      JoinedOfWordAndGap(s, "");
      assert s + "" == s;
    } else {
      LabelAfterASeparator(s, k);
      LabelIsJoined(s[k + 1..]);
      WordSeparatorLabel(s[..k], s[k], s[k + 1..]);
      SplitAround(s, k);
    }
  }

  lemma WordSeparatorLabel(word: string, c: char, t: string)
    requires IsWord(word) && IsSeparator(c) && t != "" && IsLetter(t[0]) && Joined(t) == t
    ensures Joined(word + ([c] + t)) == word + ([c] + t)
  {
    JoinedOfParts(word, [c], t);
    ConcatAssociates(word, [c], t);
  }

  /**
   What the four rewrites come to: the words of the text, in order, joined by the separator that stood between two of them when
   that was all that did, and otherwise by a `-`.
   */
  lemma OfLoweredIsJoined(lowered: string)
    ensures OfLowered(lowered) == Joined(lowered)
  {
    var replaced := OthersReplaced(lowered);
    var folded := RunsFolded(replaced);
    var slug := EdgesDropped(folded);
    ReplacingKeepsJoined(lowered);
    OthersReplacedKeeps(lowered);
    FoldingKeepsJoined(replaced);
    DroppingKeepsJoined(folded);
    RunsFoldedKeeps(replaced);
    EdgesDroppedKeeps(folded);
    if slug != "" {
      LabelIsJoined(slug);
    } else {
      assert Joined("") == "";
    }
  }

  /** Trimming takes off the characters up to a space at either end, and no others. */
  lemma {:induction false} TrimIsTheMiddle(s: string) returns (i: nat, j: nat)
    ensures i <= j <= |s| && Trim(s) == s[i..j]
    ensures (forall k :: 0 <= k < i || j <= k < |s| ==> s[k] <= ' ') && (i < j ==> s[i] > ' ' && s[j - 1] > ' ')
    decreases |s|
  {
    if s != "" && s[0] <= ' ' {
      var a, b := TrimIsTheMiddle(s[1..]);
      i, j := a + 1, b + 1;
      assert s[1..][a..b] == s[i..j];
      assert forall k :: 1 <= k < |s| ==> s[k] == s[1..][k - 1];
    } else if s != "" && s[|s| - 1] <= ' ' {
      i, j := TrimIsTheMiddle(s[..|s| - 1]);
      assert s[..|s| - 1][i..j] == s[i..j];
      assert forall k :: 0 <= k < |s| - 1 ==> s[k] == s[..|s| - 1][k];
    } else {
      i, j := 0, |s|;
      assert s[0..|s|] == s;
    }
  }
}
