/** Keyword extraction: lowercase the text, split it on runs of whitespace, keep the
    words longer than three characters, and drop repeats, keeping first occurrences. */
module NlpEngine {

  /** `\s` over ASCII: space, tab, line feed, vertical tab, form feed, carriage return. */
  predicate IsSpace(c: char)
  {
    c == ' ' || 9 <= c as int <= 13
  }

  predicate IsUpper(c: char)
  {
    'A' <= c <= 'Z'
  }

  /** `toLowerCase` on ASCII letters. */
  function LowerChar(c: char): (d: char)
    ensures !IsUpper(d)
    ensures !IsUpper(c) ==> d == c
    ensures IsUpper(c) ==> d as int == c as int + 32
    ensures IsSpace(d) <==> IsSpace(c)
  {
    if IsUpper(c) then (c as int + 32) as char else c
  }

  function Lower(s: string): (r: string)
    ensures |r| == |s|
    ensures forall i :: 0 <= i < |s| ==> r[i] == LowerChar(s[i])
  {
    seq(|s|, i requires 0 <= i < |s| => LowerChar(s[i]))
  }

  predicate NoUpper(s: string)
  {
    forall i :: 0 <= i < |s| ==> !IsUpper(s[i])
  }

  predicate NoSpace(s: string)
  {
    forall i :: 0 <= i < |s| ==> !IsSpace(s[i])
  }

  predicate Distinct(ws: seq<string>)
  {
    forall i, j :: 0 <= i < j < |ws| ==> ws[i] != ws[j]
  }

  /** Skips a run of whitespace. */
  function DropSpaces(s: string): (r: string)
    ensures |r| <= |s| && r == s[|s| - |r|..]
    ensures |r| > 0 ==> !IsSpace(r[0])
    decreases |s|
  {
    if |s| > 0 && IsSpace(s[0]) then DropSpaces(s[1..]) else s
  }

  /** `split(/\s+/)`, with `current` the token read so far. A leading or trailing run
      of whitespace yields an empty first or last token, as in JavaScript. */
  function SplitFrom(s: string, current: string): seq<string>
    decreases |s|
  {
    if |s| == 0 then [current]
    else if IsSpace(s[0]) then [current] + SplitFrom(DropSpaces(s[1..]), "")
    else SplitFrom(s[1..], current + [s[0]])
  }

  function Split(s: string): seq<string>
  {
    SplitFrom(s, "")
  }

  /** `filter(word => word.length > 3)`. */
  function LongWords(ws: seq<string>): seq<string>
  {
    if |ws| == 0 then []
    else if |ws[0]| > 3 then [ws[0]] + LongWords(ws[1..])
    else LongWords(ws[1..])
  }

  /** `[...new Set(ws)]`: each word is inserted on its first occurrence. */
  function Dedup(ws: seq<string>): seq<string>
    decreases |ws|
  {
    if |ws| == 0 then []
    else
      var seen := Dedup(ws[..|ws| - 1]);
      if ws[|ws| - 1] in seen then seen else seen + [ws[|ws| - 1]]
  }

  /** `extractKeywords(text)`. */
  function ExtractKeywords(text: string): seq<string>
  {
    Dedup(LongWords(Split(Lower(text))))
  }

  /** `words.join(" ")`. */
  function Join(ws: seq<string>): string
  {
    if |ws| == 0 then "" else if |ws| == 1 then ws[0] else ws[0] + " " + Join(ws[1..])
  }

  /** Index of the first occurrence of `x` in `ws`. */
  function FirstIndex(ws: seq<string>, x: string): (k: nat)
    requires x in ws
    ensures k < |ws| && ws[k] == x && x !in ws[..k]
  {
    if ws[0] == x then 0
    else
      var k := FirstIndex(ws[1..], x);
      assert ws[..k + 1] == [ws[0]] + ws[1..][..k];
      k + 1
  }

  // ---- LongWords ----

  lemma {:induction false} LongWordsMembers(ws: seq<string>)
    ensures forall x :: x in LongWords(ws) <==> x in ws && |x| > 3
  {
    if |ws| > 0 {
      LongWordsMembers(ws[1..]);
      assert ws == [ws[0]] + ws[1..];
    }
  }

  lemma {:induction false} LongWordsKeepsLongWords(ws: seq<string>)
    requires forall i :: 0 <= i < |ws| ==> |ws[i]| > 3
    ensures LongWords(ws) == ws
  {
    if |ws| > 0 {
      LongWordsKeepsLongWords(ws[1..]);
      assert ws == [ws[0]] + ws[1..];
    }
  }

  // ---- Dedup ----

  lemma {:induction false} DedupMembers(ws: seq<string>)
    ensures forall x :: x in Dedup(ws) <==> x in ws
    decreases |ws|
  {
    if |ws| > 0 {
      var n := |ws| - 1;
      DedupMembers(ws[..n]);
      assert ws == ws[..n] + [ws[n]];
    }
  }

  lemma {:induction false} DedupDistinct(ws: seq<string>)
    ensures Distinct(Dedup(ws))
    decreases |ws|
  {
    if |ws| > 0 {
      DedupDistinct(ws[..|ws| - 1]);
    }
  }

  lemma {:induction false} DedupKeepsDistinct(ws: seq<string>)
    requires Distinct(ws)
    ensures Dedup(ws) == ws
    decreases |ws|
  {
    if |ws| > 0 {
      var n := |ws| - 1;
      DedupKeepsDistinct(ws[..n]);
      assert forall i :: 0 <= i < n ==> ws[..n][i] != ws[n];
      assert ws == ws[..n] + [ws[n]];
    }
  }

  lemma {:induction false} FirstIndexSnoc(ws: seq<string>, y: string, x: string)
    requires x in ws
    ensures x in ws + [y] && FirstIndex(ws + [y], x) == FirstIndex(ws, x)
  {
    assert (ws + [y])[0] == ws[0];
    if ws[0] != x {
      assert (ws + [y])[1..] == ws[1..] + [y];
      FirstIndexSnoc(ws[1..], y, x);
    }
  }

  lemma {:induction false} FirstIndexOfNew(ws: seq<string>, y: string)
    requires y !in ws
    ensures y in ws + [y] && FirstIndex(ws + [y], y) == |ws|
  {
    assert (ws + [y])[|ws|] == y;
    if |ws| > 0 {
      assert (ws + [y])[0] == ws[0] && (ws + [y])[1..] == ws[1..] + [y];
      FirstIndexOfNew(ws[1..], y);
    }
  }

  /** Every word of `d` occurs in `ws`, and `d` lists its words in the order of their
      first occurrence in `ws`. */
  predicate InFirstOccurrenceOrder(d: seq<string>, ws: seq<string>)
  {
    && (forall k :: 0 <= k < |d| ==> d[k] in ws)
    && (forall i, j :: 0 <= i < j < |d| ==> FirstIndex(ws, d[i]) < FirstIndex(ws, d[j]))
  }

  /** Words come out in the order of their first occurrence. */
  lemma {:induction false} DedupFirstOccurrenceOrder(ws: seq<string>)
    ensures InFirstOccurrenceOrder(Dedup(ws), ws)
    decreases |ws|
  {
    if |ws| > 0 {
      var n := |ws| - 1;
      var pre, y := ws[..n], ws[n];
      assert ws == pre + [y];
      var d := Dedup(pre);
      var out := Dedup(ws);
      DedupFirstOccurrenceOrder(pre);
      DedupMembers(pre);
      assert out == d || (y !in pre && out == d + [y]);
      forall k | 0 <= k < |out| ensures out[k] in ws {
        if k < |d| {
          assert out[k] == d[k] && d[k] in pre;
        }
      }
      forall i, j | 0 <= i < j < |out|
        ensures FirstIndex(ws, out[i]) < FirstIndex(ws, out[j])
      {
        var a := out[i];
        var b := out[j];
        assert a == d[i] && a in pre;
        FirstIndexSnoc(pre, y, a);
        if j < |d| {
          assert b == d[j] && b in pre;
          FirstIndexSnoc(pre, y, b);
        } else {
          assert b == y && y !in pre;
          FirstIndexOfNew(pre, y);
        }
      }
    }
  }

  // ---- Split ----

  /** Every token is made of the text's non-space characters: it holds no whitespace,
      and no upper-case letter when the text has none. */
  lemma {:induction false} SplitTokensAreClean(s: string, current: string)
    requires NoSpace(current)
    ensures forall k :: 0 <= k < |SplitFrom(s, current)| ==> NoSpace(SplitFrom(s, current)[k])
    ensures NoUpper(s) && NoUpper(current) ==>
      forall k :: 0 <= k < |SplitFrom(s, current)| ==> NoUpper(SplitFrom(s, current)[k])
    decreases |s|
  {
    if |s| > 0 {
      if IsSpace(s[0]) {
        var rest := DropSpaces(s[1..]);
        if NoUpper(s) {
          forall i | 0 <= i < |rest| ensures !IsUpper(rest[i]) {
            assert rest[i] == s[1..][|s[1..]| - |rest| + i];
          }
        }
        SplitTokensAreClean(rest, "");
      } else {
        SplitTokensAreClean(s[1..], current + [s[0]]);
        if NoUpper(s) && NoUpper(current) {
          assert NoUpper(s[1..]) && NoUpper(current + [s[0]]);
        }
      }
    }
  }

  lemma {:induction false} SplitThroughWord(w: string, s: string, current: string)
    requires NoSpace(w)
    ensures SplitFrom(w + s, current) == SplitFrom(s, current + w)
    decreases |w|
  {
    if |w| == 0 {
      assert w + s == s && current + w == current;
    } else {
      assert (w + s)[0] == w[0] && (w + s)[1..] == w[1..] + s;
      SplitThroughWord(w[1..], s, current + [w[0]]);
      assert current + [w[0]] + w[1..] == current + w;
    }
  }

  /** A word followed by a single space and a non-space character ends a token. */
  lemma SplitWordThenSpace(w: string, rest: string)
    requires NoSpace(w)
    requires |rest| > 0 && !IsSpace(rest[0])
    ensures SplitFrom(w + (" " + rest), "") == [w] + SplitFrom(rest, "")
  {
    var spaced := " " + rest;
    SplitThroughWord(w, spaced, "");
    assert "" + w == w;
    assert spaced[0] == ' ' && spaced[1..] == rest;
    assert DropSpaces(rest) == rest;
    assert SplitFrom(spaced, w) == [w] + SplitFrom(DropSpaces(spaced[1..]), "");
  }

  /** Splitting words joined by single spaces gives the words back. */
  lemma {:induction false} SplitJoin(ws: seq<string>)
    requires |ws| > 0
    requires forall i :: 0 <= i < |ws| ==> |ws[i]| > 0 && NoSpace(ws[i])
    ensures Split(Join(ws)) == ws
    decreases |ws|
  {
    var w := ws[0];
    if |ws| == 1 {
      SplitThroughWord(w, "", "");
      assert w + "" == w && "" + w == w;
    } else {
      var rest := Join(ws[1..]);
      assert Join(ws) == w + (" " + rest);
      JoinStartsWithWord(ws[1..]);
      assert rest[0] == ws[1][0];
      SplitWordThenSpace(w, rest);
      SplitJoin(ws[1..]);
      assert ws == [w] + ws[1..];
    }
  }

  lemma JoinStartsWithWord(ws: seq<string>)
    requires |ws| > 0 && |ws[0]| > 0
    ensures |Join(ws)| > 0 && Join(ws)[0] == ws[0][0]
  {
  }

  lemma {:induction false} JoinNoUpper(ws: seq<string>)
    requires forall i :: 0 <= i < |ws| ==> NoUpper(ws[i])
    ensures NoUpper(Join(ws))
    decreases |ws|
  {
    if |ws| > 1 {
      JoinNoUpper(ws[1..]);
      var rest := Join(ws[1..]);
      var j := Join(ws);
      assert j == ws[0] + " " + rest;
      forall i | 0 <= i < |j| ensures !IsUpper(j[i]) {
        if i < |ws[0]| {
          assert j[i] == ws[0][i];
        } else if i > |ws[0]| {
          assert j[i] == rest[i - |ws[0]| - 1];
        }
      }
    }
  }

  lemma LowerKeepsLowercase(s: string)
    requires NoUpper(s)
    ensures Lower(s) == s
  {
  }

  // ---- extractKeywords ----

  /** Every keyword is a whitespace-separated token of the lowercased text, longer
      than three characters, and every such token is a keyword; there are no repeats,
      and keywords come in the order of their first occurrence. */
  lemma KeywordsAreTheLongTokens(text: string)
    ensures var tokens := Split(Lower(text));
      var keywords := ExtractKeywords(text);
      && (forall x :: x in keywords <==> x in tokens && |x| > 3)
      && Distinct(keywords)
      && InFirstOccurrenceOrder(keywords, LongWords(tokens))
  {
    var tokens := Split(Lower(text));
    LongWordsMembers(tokens);
    DedupMembers(LongWords(tokens));
    DedupDistinct(LongWords(tokens));
    DedupFirstOccurrenceOrder(LongWords(tokens));
  }

  /** Every keyword is longer than three characters, in lower case, and holds no space. */
  lemma KeywordsAreCleanWords(text: string)
    ensures forall k :: 0 <= k < |ExtractKeywords(text)| ==>
      var w := ExtractKeywords(text)[k];
      |w| > 3 && NoUpper(w) && NoSpace(w)
  {
    var tokens := Split(Lower(text));
    var keywords := ExtractKeywords(text);
    SplitTokensAreClean(Lower(text), "");
    LongWordsMembers(tokens);
    DedupMembers(LongWords(tokens));
    forall k | 0 <= k < |keywords| ensures |keywords[k]| > 3 && NoUpper(keywords[k]) && NoSpace(keywords[k]) {
      assert keywords[k] in tokens;
      var t :| 0 <= t < |tokens| && tokens[t] == keywords[k];
    }
  }

  /** Extracting from the keywords joined by spaces gives the same keywords. */
  lemma ExtractIdempotent(text: string)
    ensures ExtractKeywords(Join(ExtractKeywords(text))) == ExtractKeywords(text)
  {
    var keywords := ExtractKeywords(text);
    KeywordsAreCleanWords(text);
    KeywordsAreTheLongTokens(text);
    JoinNoUpper(keywords);
    LowerKeepsLowercase(Join(keywords));
    if |keywords| == 0 {
      assert Split(Join(keywords)) == [""];
    } else {
      SplitJoin(keywords);
    }
    LongWordsKeepsLongWords(keywords);
    DedupKeepsDistinct(keywords);
  }
}
