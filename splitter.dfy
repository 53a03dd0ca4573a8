/**
 * `DeepSeekBot.split_message`: cut a long reply into parts that fit one
 * Telegram message. `SplitMessage` is the loop as the bot runs it; `Split`
 * (with `SplitRest` for the loop) is the specification it is proved against,
 * and the lemmas below state what the parts are.
 */
module Splitter {
  import opened Strings

  /** The default `max_length` of `split_message`. */
  const DefaultMaxLength: nat := 4000

  /** Where one iteration cuts `text` (longer than `m`), as lines 44-48 of
      the loop compute it; `BreakIndexChoice` says which index that is. */
  function BreakIndex(text: string, m: nat): (b: nat)
    requires m < |text|
    ensures b <= m
    ensures b < m ==> IsWhitespace(text[b])
  {
    var nl := RFind(text, '\n', m);
    if nl != -1 then nl
    else
      var sp := RFind(text, ' ', m);
      if sp != -1 then sp else m
  }

  /** The cut is at the rightmost newline of the window `text[..m]`, else at
      its rightmost space, else at `m`. */
  lemma BreakIndexChoice(text: string, m: nat)
    requires m < |text|
    ensures var b := BreakIndex(text, m);
      && ('\n' in text[..m] ==>
            b < m && text[b] == '\n' && '\n' !in text[b + 1..m])
      && ('\n' !in text[..m] && ' ' in text[..m] ==>
            b < m && text[b] == ' ' && ' ' !in text[b + 1..m])
      && ('\n' !in text[..m] && ' ' !in text[..m] ==> b == m)
  {
    var nl := RFind(text, '\n', m);
    assert nl == -1 ==> '\n' !in text[..m];
    if nl == -1 {
      var sp := RFind(text, ' ', m);
      assert sp == -1 ==> ' ' !in text[..m];
    }
  }

  /** What the `while text:` loop appends to `parts` when it starts on `text`. */
  function SplitRest(text: string, m: nat): seq<string>
    requires m >= 1
    decreases |text|
  {
    if text == [] then []
    else if |text| <= m then [text]
    else
      var b := BreakIndex(text, m);
      [text[..b]] + SplitRest(LStrip(text[b..]), m)
  }

  /** What `split_message(text, m)` returns. */
  function Split(text: string, m: nat): seq<string>
    requires m >= 1
  {
    if |text| <= m then [text] else SplitRest(text, m)
  }

  /** One turn of the loop on a text longer than `m`. */
  lemma SplitRestStep(text: string, m: nat)
    requires 1 <= m < |text|
    ensures var b := BreakIndex(text, m);
      SplitRest(text, m) == [text[..b]] + SplitRest(LStrip(text[b..]), m)
  {
  }

  /** The same turn seen from the loop: the parts so far plus what the loop
      still appends stay the same, and the remainder gets shorter. */
  lemma SplitRestAdvance(parts: seq<string>, rest: string, m: nat)
    requires 1 <= m < |rest|
    ensures var b := BreakIndex(rest, m);
      && |LStrip(rest[b..])| < |rest|
      && parts + SplitRest(rest, m) == (parts + [rest[..b]]) + SplitRest(LStrip(rest[b..]), m)
  {
    var b := BreakIndex(rest, m);
    var later := SplitRest(LStrip(rest[b..]), m);
    SplitRestStep(rest, m);
    assert (parts + [rest[..b]]) + later == parts + ([rest[..b]] + later);
  }

  /** The concatenation of the parts. */
  function Concat(parts: seq<string>): string
    decreases |parts|
  {
    if parts == [] then [] else parts[0] + Concat(parts[1..])
  }

  /** `text` is the parts in order, with only runs of whitespace between
      one part's end and the next part's start (and after the last part). */
  ghost predicate WhitespaceJoined(text: string, parts: seq<string>)
    decreases |parts|
  {
    if parts == [] then AllWhitespace(text)
    else
      |parts[0]| <= |text| && text[..|parts[0]|] == parts[0] &&
      var rest := text[|parts[0]|..];
      exists k :: 0 <= k <= |rest| && AllWhitespace(rest[..k]) &&
                  WhitespaceJoined(rest[k..], parts[1..])
  }

  /** `text` without its whitespace characters. */
  function NonWhitespace(text: string): string
    decreases |text|
  {
    if text == [] then []
    else (if IsWhitespace(text[0]) then [] else [text[0]]) + NonWhitespace(text[1..])
  }

  /** `split_message(text, maxLength)`: a text that fits is returned as the
      single part, a longer one goes through `SplitLoop`. */
  method SplitMessage(text: string, maxLength: nat) returns (parts: seq<string>)
    requires maxLength >= 1
    ensures parts == Split(text, maxLength)
    ensures |text| <= maxLength ==> parts == [text]
    ensures |parts| >= 1
    ensures forall i :: 0 <= i < |parts| ==> |parts[i]| <= maxLength
  {
    if |text| <= maxLength {
      return [text];
    }
    parts := SplitLoop(text, maxLength);
    SplitNonEmpty(text, maxLength);
    SplitPartsBounded(text, maxLength);
  }

  /** The `while text:` loop of `split_message`. `maxLength` must be at
      least 1: with 0 the loop never ends on a text that holds a
      non-whitespace character. */
  method SplitLoop(text: string, maxLength: nat) returns (parts: seq<string>)
    requires maxLength >= 1
    ensures parts == SplitRest(text, maxLength)
  {
    parts := [];
    var rest := text;
    while rest != []
      invariant parts + SplitRest(rest, maxLength) == SplitRest(text, maxLength)
      decreases |rest|
    {
      if |rest| <= maxLength {
        parts := parts + [rest];
        break;
      }
      var breakIndex := RFind(rest, '\n', maxLength);
      if breakIndex == -1 {
        breakIndex := RFind(rest, ' ', maxLength);
      }
      if breakIndex == -1 {
        breakIndex := maxLength;
      }
      SplitRestAdvance(parts, rest, maxLength);
      parts := parts + [rest[..breakIndex]];
      rest := LStrip(rest[breakIndex..]);
    }
  }

  // ---------------------------------------------------------------- lengths

  lemma {:induction false} SplitRestBounded(text: string, m: nat)
    requires m >= 1
    ensures forall i :: 0 <= i < |SplitRest(text, m)| ==> |SplitRest(text, m)[i]| <= m
    decreases |text|
  {
    if text != [] && |text| > m {
      var b := BreakIndex(text, m);
      SplitRestBounded(LStrip(text[b..]), m);
    }
  }

  /** No part is longer than `max_length`. */
  lemma SplitPartsBounded(text: string, m: nat)
    requires m >= 1
    ensures forall i :: 0 <= i < |Split(text, m)| ==> |Split(text, m)[i]| <= m
  {
    SplitRestBounded(text, m);
  }

  /** There is always at least one part, even for the empty text. */
  lemma SplitNonEmpty(text: string, m: nat)
    requires m >= 1
    ensures |Split(text, m)| >= 1
  {
  }

  // ---------------------------------------------------------- break points

  /** The first part of a text longer than `max_length` ends at the rightmost
      newline of the window `text[..m]` (exclusive), else at its rightmost
      space, and is otherwise the hard cut `text[..m]`. A part cut at a
      separator is strictly shorter than `m`; a hard cut has length `m`. */
  lemma SplitFirstPart(text: string, m: nat)
    requires 1 <= m < |text|
    ensures |Split(text, m)| >= 1
    ensures var p := Split(text, m)[0];
      |p| <= m && p == text[..|p|] &&
      ('\n' in text[..m] ==>
         |p| < m && text[|p|] == '\n' && '\n' !in text[|p| + 1..m]) &&
      ('\n' !in text[..m] && ' ' in text[..m] ==>
         |p| < m && text[|p|] == ' ' && ' ' !in text[|p| + 1..m]) &&
      ('\n' !in text[..m] && ' ' !in text[..m] ==> |p| == m)
  {
    var b := BreakIndex(text, m);
    BreakIndexChoice(text, m);
    SplitRestStep(text, m);
    assert Split(text, m)[0] == text[..b];
  }

  lemma ConsIndex(first: string, tail: seq<string>, i: nat)
    requires 1 <= i <= |tail|
    ensures ([first] + tail)[i] == tail[i - 1]
  {
  }

  lemma {:induction false} SplitRestLaterParts(text: string, m: nat)
    requires m >= 1
    requires text == [] || !IsWhitespace(text[0])
    ensures forall i :: 0 <= i < |SplitRest(text, m)| ==>
      SplitRest(text, m)[i] != [] && !IsWhitespace(SplitRest(text, m)[i][0])
    decreases |text|
  {
    if text != [] && |text| > m {
      var b := BreakIndex(text, m);
      SplitRestLaterParts(LStrip(text[b..]), m);
    }
  }

  /** Only the first part can be empty (when the text opens with the only
      separator of its window); every later part starts with a
      non-whitespace character, since the remainder was left-stripped. */
  lemma SplitLaterPartsStartNonWhitespace(text: string, m: nat)
    requires m >= 1
    ensures forall i :: 1 <= i < |Split(text, m)| ==>
      Split(text, m)[i] != [] && !IsWhitespace(Split(text, m)[i][0])
  {
    if |text| > m {
      var b := BreakIndex(text, m);
      var tail := SplitRest(LStrip(text[b..]), m);
      SplitRestStep(text, m);
      SplitRestLaterParts(LStrip(text[b..]), m);
      var parts := Split(text, m);
      assert parts == [text[..b]] + tail;
      forall i | 1 <= i < |parts|
        ensures parts[i] != [] && !IsWhitespace(parts[i][0])
      {
        ConsIndex(text[..b], tail, i);
      }
    }
  }

  // ------------------------------------------------------- nothing is lost

  lemma {:induction false} SplitRestJoined(text: string, m: nat)
    requires m >= 1
    ensures WhitespaceJoined(text, SplitRest(text, m))
    decreases |text|
  {
    var parts := SplitRest(text, m);
    if text == [] {
    } else if |text| <= m {
      assert text[|text|..] == [];
      assert WhitespaceJoined(text[|text|..][0..], []);
    } else {
      var b := BreakIndex(text, m);
      var tail := text[b..];
      var r := LStrip(tail);
      SplitRestJoined(r, m);
      var k := |tail| - |r|;
      assert parts[0] == text[..b] && parts[1..] == SplitRest(r, m);
      assert tail[k..] == r;
      assert AllWhitespace(tail[..k]) && WhitespaceJoined(tail[k..], parts[1..]);
    }
  }

  /** The parts are consecutive, in-order slices of the text, and only
      whitespace lies between them. */
  lemma SplitJoined(text: string, m: nat)
    requires m >= 1
    ensures WhitespaceJoined(text, Split(text, m))
  {
    if |text| <= m {
      assert text[..|text|] == text && text[|text|..] == [];
      assert WhitespaceJoined(text[|text|..][0..], []);
    } else {
      SplitRestJoined(text, m);
    }
  }

  lemma {:induction false} NonWhitespaceAppend(a: string, b: string)
    ensures NonWhitespace(a + b) == NonWhitespace(a) + NonWhitespace(b)
    decreases |a|
  {
    if a == [] {
      assert a + b == b;
    } else {
      assert (a + b)[0] == a[0] && (a + b)[1..] == a[1..] + b;
      NonWhitespaceAppend(a[1..], b);
    }
  }

  lemma {:induction false} NonWhitespaceOfWhitespace(s: string)
    requires AllWhitespace(s)
    ensures NonWhitespace(s) == []
    decreases |s|
  {
    if s != [] {
      NonWhitespaceOfWhitespace(s[1..]);
    }
  }

  /** Joining with whitespace loses no non-whitespace character and keeps
      their order. */
  lemma {:induction false} JoinedKeepsNonWhitespace(text: string, parts: seq<string>)
    requires WhitespaceJoined(text, parts)
    ensures NonWhitespace(text) == NonWhitespace(Concat(parts))
    decreases |parts|
  {
    if parts == [] {
      NonWhitespaceOfWhitespace(text);
    } else {
      var p := parts[0];
      var rest := text[|p|..];
      var k :| 0 <= k <= |rest| && AllWhitespace(rest[..k]) &&
               WhitespaceJoined(rest[k..], parts[1..]);
      var gap, after := rest[..k], rest[k..];
      assert text[..|p|] + rest == text;
      assert gap + after == rest;
      GapDropsOut(p, gap, after);
      JoinedKeepsNonWhitespace(after, parts[1..]);
      NonWhitespaceAppend(p, Concat(parts[1..]));
    }
  }

  /** A whitespace gap between two pieces contributes nothing. */
  lemma GapDropsOut(before: string, gap: string, after: string)
    requires AllWhitespace(gap)
    ensures NonWhitespace(before + (gap + after)) == NonWhitespace(before) + NonWhitespace(after)
  {
    NonWhitespaceAppend(before, gap + after);
    NonWhitespaceAppend(gap, after);
    NonWhitespaceOfWhitespace(gap);
    assert [] + NonWhitespace(after) == NonWhitespace(after);
  }

  /** The non-whitespace characters of the reply reach the user, all of
      them and in order. */
  lemma SplitKeepsNonWhitespace(text: string, m: nat)
    requires m >= 1
    ensures NonWhitespace(Concat(Split(text, m))) == NonWhitespace(text)
  {
    SplitJoined(text, m);
    JoinedKeepsNonWhitespace(text, Split(text, m));
  }
}
