/**
 Positions counted as the console counts them, two for a character outside the basic plane, over text held as
 characters and, in memory, as UTF-8 bytes. A cut between the two halves of a character falls before it.
 */
module JavaString {
  import opened Numbers
  import opened Options

  function Utf16Width(c: char): (n: nat)
    ensures 1 <= n <= 2
  {
    if c as int < 0x10000 then 1 else 2
  }

  function Utf8Width(c: char): (n: nat)
    ensures 1 <= n <= 4
  {
    if c as int < 0x80 then 1 else if c as int < 0x800 then 2 else if c as int < 0x10000 then 3 else 4
  }

  /** `len`: how long the console takes the text to be. */
  function Len(text: string): (n: nat)
    ensures |text| <= n <= 2 * |text|
  {
    if text == "" then 0 else Len(text[..|text| - 1]) + Utf16Width(text[|text| - 1])
  }

  function Bytes(text: string): (n: nat)
    ensures |text| <= n
  {
    if text == "" then 0 else Bytes(text[..|text| - 1]) + Utf8Width(text[|text| - 1])
  }

  /** How many of the characters are at or past `from`. */
  ghost function CountFrom(text: string, from: int): nat {
    if text == "" then 0 else CountFrom(text[..|text| - 1], from) + if text[|text| - 1] as int >= from then 1 else 0
  }

  /** One unit for each character, and one more for each outside the basic plane. */
  lemma {:induction false} LenCounts(text: string)
    ensures Len(text) == |text| + CountFrom(text, 0x10000)
  {
    if text != "" {
      LenCounts(text[..|text| - 1]);
    }
  }

  /** One byte for each character, and one more at each of the three bounds of UTF-8 it reaches. */
  lemma {:induction false} BytesCount(text: string)
    ensures Bytes(text) == |text| + CountFrom(text, 0x80) + CountFrom(text, 0x800) + CountFrom(text, 0x10000)
  {
    if text != "" {
      BytesCount(text[..|text| - 1]);
    }
  }

  lemma {:induction false} LenOfConcat(a: string, b: string)
    ensures Len(a + b) == Len(a) + Len(b) && Bytes(a + b) == Bytes(a) + Bytes(b)
  {
    if b == "" {
      assert a + b == a;
    } else {
      assert (a + b)[..|a + b| - 1] == a + b[..|b| - 1];
      LenOfConcat(a, b[..|b| - 1]);
    }
  }

  /** A longer prefix has more units and more bytes, so either count names one boundary. */
  lemma PrefixesGrow(text: string, i: nat, j: nat)
    requires i < j <= |text|
    ensures Len(text[..i]) < Len(text[..j]) && Bytes(text[..i]) < Bytes(text[..j])
  {
    assert text[..j] == text[..i] + text[i..j];
    LenOfConcat(text[..i], text[i..j]);
  }

  /** Cutting before character `at` keeps as much of the text as `index` units hold, and no more. */
  ghost predicate IsCut(text: string, index: nat, at: nat) {
    at <= |text| && Len(text[..at]) <= index && (at < |text| ==> Len(text[..at + 1]) > index)
  }

  lemma CutIsUnique(text: string, index: nat, i: nat, j: nat)
    requires IsCut(text, index, i) && IsCut(text, index, j)
    ensures i == j
  {
    if i + 1 < j {
      PrefixesGrow(text, i + 1, j);
    } else if j + 1 < i {
      PrefixesGrow(text, j + 1, i);
    }
  }

  /** The boundary `byte_offset` stops at, counted in characters. */
  function Cut(text: string, index: nat): (at: nat)
    ensures IsCut(text, index, at)
  {
    CutFrom(text, index, 0)
  }

  function CutFrom(text: string, index: nat, k: nat): (at: nat)
    requires k <= |text| && Len(text[..k]) <= index
    ensures IsCut(text, index, at)
    decreases |text| - k
  {
    if k == |text| then k
    else
      assert text[..k + 1][..k] == text[..k];
      if Len(text[..k]) + Utf16Width(text[k]) > index then k else CutFrom(text, index, k + 1)
  }

  /** `byte_offset`: where that boundary is in the bytes, found by counting units character by character. */
  method ByteOffset(text: string, index: nat) returns (offset: nat)
    ensures offset == Bytes(text[..Cut(text, index)])
  {
    var units := 0;
    offset := 0;
    for k := 0 to |text|
      invariant units == Len(text[..k]) && units <= index && offset == Bytes(text[..k])
    {
      assert text[..k + 1][..k] == text[..k];
      if units + Utf16Width(text[k]) > index {
        CutIsUnique(text, index, k, Cut(text, index));
        return;
      }
      units := units + Utf16Width(text[k]);
      offset := offset + Utf8Width(text[k]);
    }
    CutIsUnique(text, index, |text|, Cut(text, index));
  }

  function Substring(text: string, start: nat, end: nat): string {
    text[Cut(text, start)..Max(Cut(text, end), Cut(text, start))]
  }

  function Prefix(text: string, end: nat): string {
    Substring(text, 0, end)
  }

  function Suffix(text: string, start: nat): string {
    text[Cut(text, start)..]
  }

  predicate StartsAt(text: string, needle: string, at: nat) {
    at + |needle| <= |text| && text[at..at + |needle|] == needle
  }

  /** The first character position `needle` starts at, from `k` on. */
  function FindFrom(text: string, needle: string, k: nat): (at: Option<nat>)
    requires k <= |text|
    ensures at.Some? ==> k <= at.value && StartsAt(text, needle, at.value) && forall j :: k <= j < at.value ==> !StartsAt(text, needle, j)
    ensures at.None? ==> forall j :: k <= j ==> !StartsAt(text, needle, j)
    decreases |text| - k
  {
    if StartsAt(text, needle, k) then Some(k)
    else if k == |text| then None
    else FindFrom(text, needle, k + 1)
  }

  function IndexOf(text: string, needle: string): Option<nat> {
    var at := FindFrom(text, needle, 0);
    if at.Some? then Some(Len(text[..at.value])) else None
  }

  // ------------------------------------------------------------------ laws

  lemma CutAtZero(text: string)
    ensures Cut(text, 0) == 0
  {
    if text != "" {
      assert text[..1] == [text[0]] && [text[0]][..0] == "";
    }
    CutIsUnique(text, 0, Cut(text, 0), 0);
  }

  lemma PrefixIsTheFirstPart(text: string, k: nat)
    ensures Prefix(text, k) == text[..Cut(text, k)]
  {
    CutAtZero(text);
  }

  /** A text cut anywhere is its two parts put together again. */
  lemma PrefixAndSuffixRebuild(text: string, k: nat)
    ensures Prefix(text, k) + Suffix(text, k) == text
  {
    PrefixIsTheFirstPart(text, k);
  }

  /** A cut loses at most the half of one character that straddles it. */
  lemma PrefixIsNearlyAsLong(text: string, k: nat)
    ensures Len(Prefix(text, k)) <= k
    ensures k <= Len(text) ==> k - 1 <= Len(Prefix(text, k))
    ensures k >= Len(text) ==> Prefix(text, k) == text
  {
    PrefixIsTheFirstPart(text, k);
    var at := Cut(text, k);
    if at < |text| {
      assert text[..at + 1][..at] == text[..at];
      if at + 1 < |text| {
        PrefixesGrow(text, at + 1, |text|);
      }
      assert text[..|text|] == text;
    } else {
      assert text[..at] == text;
    }
  }

  /** `byte_offset` inverts `len` on character boundaries. */
  lemma CutInvertsLen(text: string, at: nat)
    requires at <= |text|
    ensures Cut(text, Len(text[..at])) == at
  {
    if at < |text| {
      PrefixesGrow(text, at, at + 1);
    }
    CutIsUnique(text, Len(text[..at]), Cut(text, Len(text[..at])), at);
  }

  /** Between two indices in order lies the suffix at the first of the prefix at the second. */
  lemma SubstringIsSuffixOfPrefix(text: string, a: nat, b: nat)
    requires a <= b
    ensures Substring(text, a, b) == Suffix(Prefix(text, b), a)
  {
    var i, j := Cut(text, a), Cut(text, b);
    PrefixIsTheFirstPart(text, b);
    var prefix := text[..j];
    if i > j {
      if j + 1 < i {
        PrefixesGrow(text, j + 1, i);
      }
      assert false;
    }
    assert prefix[..i] == text[..i];
    if i < j {
      assert prefix[..i + 1] == text[..i + 1];
    }
    CutIsUnique(prefix, a, Cut(prefix, a), i);
  }

  /** The index found is where `needle` starts in the text cut there, and it starts nowhere before. */
  lemma IndexOfIsTheFirst(text: string, needle: string)
    ensures IndexOf(text, needle).Some? ==>
              var at := Cut(text, IndexOf(text, needle).value);
              needle <= Suffix(text, IndexOf(text, needle).value) && forall j :: 0 <= j < at ==> !(needle <= text[j..])
    ensures IndexOf(text, needle).None? <==> forall j :: 0 <= j <= |text| ==> !(needle <= text[j..])
  {
    var at := FindFrom(text, needle, 0);
    if at.Some? {
      CutInvertsLen(text, at.value);
    }
    forall j: nat | j <= |text| ensures StartsAt(text, needle, j) <==> needle <= text[j..] {
      StartsAtMeans(text, needle, j);
    }
  }

  lemma StartsAtMeans(text: string, needle: string, at: nat)
    requires at <= |text|
    ensures StartsAt(text, needle, at) <==> needle <= text[at..]
  {
    if at + |needle| <= |text| {
      assert text[at..][..|needle|] == text[at..at + |needle|];
    }
  }

  /** Nothing lies between two indices the wrong way round. */
  lemma BackwardsIsEmpty(text: string, a: nat, b: nat)
    requires b <= a
    ensures Substring(text, a, b) == ""
  {
    var i, j := Cut(text, a), Cut(text, b);
    if i + 1 < j {
      PrefixesGrow(text, i + 1, j);
    }
  }
}
