/**
 * chunk_text of the embedding generator: a long text is cut into windows of
 * at most `maxTokens` tokens, each window starting `maxTokens - overlap`
 * tokens after the previous one, and the cutting stops as soon as fewer than
 * `overlap` tokens would remain after the next start. When the tokenizer
 * raises, the same cutting runs over characters, four characters per token.
 */
module Chunking {
  import opened Common
  import opened Embedding

  /** The tokenizer's decode (total: it is not modelled as raising). */
  type Decoder = seq<Token> -> string

  const DefaultMaxTokens: nat := 6000
  const DefaultOverlap: nat := 200

  /** Characters per token in the fallback that cuts by characters. */
  const CharsPerToken: nat := 4

  /**
   * The windows the cutting loop produces from `start` on: `s[start:start+width]`,
   * then the next start is `start + width - overlap`, and the loop stops when the
   * next start is past the end or leaves fewer than `overlap` items. There is a
   * window exactly when `start` is inside the sequence.
   */
  function Windows<T>(s: seq<T>, width: nat, overlap: nat, start: nat): (r: seq<seq<T>>)
    requires overlap < width
    ensures r == [] <==> start >= |s|
    decreases |s| - start
  {
    if start >= |s| then []
    else
      var next := start + width - overlap;
      [s[start..Min(start + width, |s|)]]
        + (if |s| - next < overlap then [] else Windows(s, width, overlap, next))
  }

  /** The first window and the windows after it. */
  lemma WindowsUnfold<T>(s: seq<T>, width: nat, overlap: nat, start: nat)
    requires overlap < width && start < |s|
    ensures Windows(s, width, overlap, start)
            == [s[start..Min(start + width, |s|)]]
               + (if |s| - (start + width - overlap) < overlap then []
                  else Windows(s, width, overlap, start + width - overlap))
  {
  }

  /**
   * Undoes the overlap: every window but the last loses its final `overlap`
   * items, and what is left is concatenated.
   */
  function Stitch<T>(ws: seq<seq<T>>, overlap: nat): seq<T>
  {
    if ws == [] then []
    else if |ws| == 1 then ws[0]
    else ws[0][..|ws[0]| - Min(overlap, |ws[0]|)] + Stitch(ws[1..], overlap)
  }

  function DecodeAll(decode: Decoder, ws: seq<seq<Token>>): (r: seq<string>)
    ensures |r| == |ws|
    ensures forall k :: 0 <= k < |ws| ==> r[k] == decode(ws[k])
  {
    if ws == [] then [] else [decode(ws[0])] + DecodeAll(decode, ws[1..])
  }

  /** Every window is non-empty and holds at most `width` items. */
  lemma {:induction false} WindowSizes<T>(s: seq<T>, width: nat, overlap: nat, start: nat)
    requires overlap < width
    ensures forall k :: 0 <= k < |Windows(s, width, overlap, start)| ==>
              0 < |Windows(s, width, overlap, start)[k]| <= width
    decreases |s| - start
  {
    if start < |s| {
      var next := start + width - overlap;
      if |s| - next >= overlap {
        WindowSizes(s, width, overlap, next);
      }
    }
  }

  /** No item is lost and none is duplicated once the overlaps are removed. */
  lemma {:induction false} StitchWindows<T>(s: seq<T>, width: nat, overlap: nat, start: nat)
    requires overlap < width
    requires start <= |s|
    ensures Stitch(Windows(s, width, overlap, start), overlap) == s[start..]
    decreases |s| - start
  {
    if start < |s| {
      var next := start + width - overlap;
      var ws := Windows(s, width, overlap, start);
      if |s| - next < overlap {
        assert Min(start + width, |s|) == |s|;
        assert ws == [s[start..|s|]] + [];
      } else {
        var rest := Windows(s, width, overlap, next);
        var w := s[start..start + width];
        assert ws == [w] + rest;
        if rest == [] {
          assert next == |s| && start + width == |s|;
          assert ws == [s[start..|s|]] + [];
        } else {
          StitchWindows(s, width, overlap, next);
          assert ws[1..] == rest;
          assert w[..|w| - Min(overlap, |w|)] == s[start..next];
          assert s[start..next] + s[next..] == s[start..];
        }
      }
    }
  }

  /**
   * The number of windows as written, in closed form: with m = max(overlap, 1),
   * L the length from `start` on and d = width - overlap, the count c is 1 when
   * L < m, and otherwise the c with (c - 1) * d <= L - m < c * d, that is
   * 1 + floor((L - m) / d).
   */
  lemma {:induction false} WindowCount<T>(s: seq<T>, width: nat, overlap: nat, start: nat)
    requires overlap < width
    requires start < |s|
    ensures |s| - start < Max(overlap, 1) ==> |Windows(s, width, overlap, start)| == 1
    ensures |s| - start >= Max(overlap, 1) ==>
              var c := |Windows(s, width, overlap, start)|;
              (c - 1) * (width - overlap) <= |s| - start - Max(overlap, 1) < c * (width - overlap)
    decreases |s| - start
  {
    var d := width - overlap;
    var next := start + d;
    WindowsUnfold(s, width, overlap, start);
    if |s| - next >= overlap && next < |s| {
      WindowCount(s, width, overlap, next);
      var c' := |Windows(s, width, overlap, next)|;
      assert |Windows(s, width, overlap, start)| == c' + 1;
      CountStep(c', d, |s| - start - Max(overlap, 1));
    }
  }

  lemma CountStep(c: int, d: int, x: int)
    requires (c - 1) * d <= x - d < c * d
    ensures c * d <= x < (c + 1) * d
  {
    assert (c - 1) * d == c * d - d;
    assert (c + 1) * d == c * d + d;
  }

  /**
   * With 10 items, windows of 6 and an overlap of 2, the loop emits 3 windows,
   * not ceil((10 - 2) / (6 - 2)) = 2: the third window lies wholly inside the second.
   * Here L = 10, m = 2 and d = 4, and 1 + floor(8 / 4) = 3.
   */
  lemma ThreeWindowsForTen<T>(s: seq<T>)
    requires |s| == 10
    ensures |Windows(s, 6, 2, 0)| == 3
    ensures Windows(s, 6, 2, 0)[1] == s[4..10] && Windows(s, 6, 2, 0)[2] == s[8..10]
  {
    assert Windows(s, 6, 2, 8) == [s[8..10]] + [];
    assert Windows(s, 6, 2, 4) == [s[4..10]] + Windows(s, 6, 2, 8);
    assert Windows(s, 6, 2, 0) == [s[0..6]] + Windows(s, 6, 2, 4);
  }

  // ---------------------------------------------------------------------
  // chunk_text
  // ---------------------------------------------------------------------

  /**
   * What chunk_text returns. Only the empty text that the tokenizer refuses
   * yields no chunk; a text the tokenizer accepts yields at least one (the empty
   * text itself when it has no tokens), and the first character chunk is a
   * non-empty prefix of the text of at most `4 * maxTokens` characters.
   */
  function ChunkTextSpec(text: string, encode: Encoder, decode: Decoder, maxTokens: nat, overlap: nat): (r: seq<string>)
    requires overlap < maxTokens
    ensures r == [] <==> encode(text).None? && text == []
    ensures r != [] && encode(text).None? ==> 0 < |r[0]| <= CharsPerToken * maxTokens && r[0] <= text
  {
    match encode(text)
    case Some(tokens) =>
      if |tokens| <= maxTokens then [text]
      else DecodeAll(decode, Windows(tokens, maxTokens, overlap, 0))
    case None =>
      Windows(text, CharsPerToken * maxTokens, CharsPerToken * overlap, 0)
  }

  /** A text that does not fit in one chunk yields at least two, each the decoding of 1..maxTokens tokens that reassemble the whole token list. */
  lemma TokenChunks(text: string, encode: Encoder, decode: Decoder, maxTokens: nat, overlap: nat)
    requires overlap < maxTokens
    requires encode(text).Some? && |encode(text).value| > maxTokens
    ensures var ws := Windows(encode(text).value, maxTokens, overlap, 0);
            && |ChunkTextSpec(text, encode, decode, maxTokens, overlap)| == |ws| >= 2
            && (forall k :: 0 <= k < |ws| ==>
                  ChunkTextSpec(text, encode, decode, maxTokens, overlap)[k] == decode(ws[k])
                  && 0 < |ws[k]| <= maxTokens)
            && Stitch(ws, overlap) == encode(text).value
  {
    var tokens := encode(text).value;
    WindowSizes(tokens, maxTokens, overlap, 0);
    StitchWindows(tokens, maxTokens, overlap, 0);
    var next := maxTokens - overlap;
    assert Windows(tokens, maxTokens, overlap, 0)
        == [tokens[0..maxTokens]] + Windows(tokens, maxTokens, overlap, next);
  }

  /** When the tokenizer raises, the chunks are non-empty slices of at most 4 * maxTokens characters that reassemble the text. */
  lemma CharFallbackChunks(text: string, encode: Encoder, decode: Decoder, maxTokens: nat, overlap: nat)
    requires overlap < maxTokens
    requires encode(text).None?
    ensures var r := ChunkTextSpec(text, encode, decode, maxTokens, overlap);
            && (forall k :: 0 <= k < |r| ==> 0 < |r[k]| <= CharsPerToken * maxTokens)
            && Stitch(r, CharsPerToken * overlap) == text
            && (r == [] <==> text == [])
  {
    WindowSizes(text, CharsPerToken * maxTokens, CharsPerToken * overlap, 0);
    StitchWindows(text, CharsPerToken * maxTokens, CharsPerToken * overlap, 0);
  }

  /** chunk_text as the source runs it: the token loop, or the character loop when the tokenizer raises. */
  method ChunkText(text: string, encode: Encoder, decode: Decoder,
                   maxTokens: nat := DefaultMaxTokens, overlap: nat := DefaultOverlap)
    returns (chunks: seq<string>)
    requires overlap < maxTokens
    ensures chunks == ChunkTextSpec(text, encode, decode, maxTokens, overlap)
  {
    match encode(text)
    case Some(tokens) =>
      if |tokens| <= maxTokens {
        return [text];
      }
      chunks := ChunkTokens(tokens, decode, maxTokens, overlap);
    case None =>
      chunks := ChunkChars(text, maxTokens * CharsPerToken, overlap * CharsPerToken);
  }

  /** One turn of the cutting loop: the window at `start` is emitted, and either the loop stops with every window emitted or it goes on from the next start. */
  lemma CutStep<T>(s: seq<T>, width: nat, overlap: nat, start: nat, done: seq<seq<T>>, all: seq<seq<T>>)
    requires overlap < width && start < |s|
    requires done + Windows(s, width, overlap, start) == all
    ensures var next := start + width - overlap;
            var done' := done + [s[start..Min(start + width, |s|)]];
            && (|s| - next < overlap ==> done' == all)
            && (|s| - next >= overlap ==> next <= |s| && done' + Windows(s, width, overlap, next) == all)
  {
    WindowsUnfold(s, width, overlap, start);
    var next := start + width - overlap;
    var w := s[start..Min(start + width, |s|)];
    if |s| - next < overlap {
      assert [w] + [] == [w];
    } else {
      Associative(done, [w], Windows(s, width, overlap, next));
    }
  }

  lemma Associative<T>(a: seq<T>, b: seq<T>, c: seq<T>)
    ensures a + (b + c) == (a + b) + c
  {
  }

  lemma DecodeAllSnoc(decode: Decoder, ws: seq<seq<Token>>, w: seq<Token>)
    ensures DecodeAll(decode, ws + [w]) == DecodeAll(decode, ws) + [decode(w)]
  {
    var l, r := DecodeAll(decode, ws + [w]), DecodeAll(decode, ws) + [decode(w)];
    assert forall k :: 0 <= k < |l| ==> l[k] == r[k];
  }

  /** The token loop: each window of tokens is decoded as soon as it is cut. */
  method ChunkTokens(tokens: seq<Token>, decode: Decoder, maxTokens: nat, overlap: nat)
    returns (chunks: seq<string>)
    requires overlap < maxTokens
    ensures chunks == DecodeAll(decode, Windows(tokens, maxTokens, overlap, 0))
  {
    ghost var all := Windows(tokens, maxTokens, overlap, 0);
    ghost var cut: seq<seq<Token>> := [];
    chunks := [];
    var start := 0;
    while start < |tokens|
      invariant start <= |tokens|
      invariant cut + Windows(tokens, maxTokens, overlap, start) == all
      invariant chunks == DecodeAll(decode, cut)
      decreases |tokens| - start
    {
      var end := start + maxTokens;
      var chunkTokens := tokens[start..Min(end, |tokens|)];
      CutStep(tokens, maxTokens, overlap, start, cut, all);
      DecodeAllSnoc(decode, cut, chunkTokens);
      chunks := chunks + [decode(chunkTokens)];
      cut := cut + [chunkTokens];
      start := end - overlap;
      if |tokens| - start < overlap {
        break;
      }
    }
    assert cut == all;
  }

  /** The character loop of the fallback. */
  method ChunkChars(text: string, chunkSize: nat, overlapChars: nat) returns (chunks: seq<string>)
    requires overlapChars < chunkSize
    ensures chunks == Windows(text, chunkSize, overlapChars, 0)
  {
    ghost var all := Windows(text, chunkSize, overlapChars, 0);
    chunks := [];
    var start := 0;
    while start < |text|
      invariant start <= |text|
      invariant chunks + Windows(text, chunkSize, overlapChars, start) == all
      decreases |text| - start
    {
      var end := start + chunkSize;
      CutStep(text, chunkSize, overlapChars, start, chunks, all);
      chunks := chunks + [text[start..Min(end, |text|)]];
      start := end - overlapChars;
      if |text| - start < overlapChars {
        break;
      }
    }
  }
}
