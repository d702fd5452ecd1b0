/** The string handling that turns the language model's raw reply into the text
    handed to the JSON decoder (`_generate_project_description`): keep what
    follows the last "[|AI|]:" marker, strip it, then cut from the first `{` to
    just after the last `}`. */
module ResponseExtraction {
  import opened TextOps

  /** The marker that ends the prompt and opens the model's answer. */
  const AiMarker: string := "[|AI|]:"

  /** `response.split(marker)[-1].strip()`: the stripped text after the last
      marker, or the whole stripped reply when the marker is absent (so this
      step never fails). */
  function StrippedTail(response: string, marker: string): (c: string)
    requires |marker| > 0
    ensures !Contains(response, marker) ==> c == Strip(response)
    ensures Contains(response, marker) ==>
              exists a :: |marker| <= a <= |response| && OccursAt(response, marker, a - |marker|)
                          && !Contains(response[a..], marker) && c == Strip(response[a..])
  {
    var tail := SplitLast(response, marker);
    assert tail == response[|response| - |tail|..];
    Strip(tail)
  }

  /** The candidate answer: what follows the last "[|AI|]:", stripped. */
  function ReplyCandidate(response: string): string
  {
    StrippedTail(response, AiMarker)
  }

  /** `piece` sits in `s` at index `a`. */
  predicate PieceAt(s: string, piece: string, a: int)
  {
    0 <= a <= a + |piece| <= |s| && s[a..a + |piece|] == piece
  }

  /** The slice `c[c.find('{') : c.rfind('}') + 1]` when `c` has a `{`, and `c`
      itself when it has none.  The end index is never -1, so the source's test
      of it is always true; a `{` with no `}` after it gives an empty slice.
      A non-empty slice runs from the first `{` to the last `}` of `c`. */
  function JsonSpan(c: string): (j: string)
    ensures '{' !in c ==> j == c
    ensures '{' in c ==> (j == [] <==> '}' !in c[Find(c, '{')..])
    ensures '{' in c && j != [] ==>
              && j[0] == '{' && j[|j| - 1] == '}'
              && exists a :: PieceAt(c, j, a) && '{' !in c[..a] && '}' !in c[a + |j|..]
  {
    var start := Find(c, '{');
    var end := RFind(c, '}') + 1;
    if start != -1 && end != -1 then
      if start < end then
        var j := c[start..end];
        assert PieceAt(c, j, start);
        assert '}' in c[start..] by { assert c[start..][end - 1 - start] == '}'; }
        j
      else
        assert '}' !in c[start..] by {
          forall i | 0 <= i < |c[start..]| ensures c[start..][i] != '}' {
            if end > 0 {
              assert c[start..][i] == c[end..][start + i - end];
            }
          }
        }
        []
    else
      c
  }

  /** What the source hands to `json.loads`. */
  function ExtractJson(response: string): string
  {
    JsonSpan(ReplyCandidate(response))
  }

  /** A piece of a piece is a piece, at the summed offset. */
  lemma PieceOfPiece(s: string, t: string, u: string, a: int, b: int)
    requires PieceAt(s, t, a) && PieceAt(t, u, b)
    ensures PieceAt(s, u, a + b)
  {
    forall i | 0 <= i < |u| ensures s[a + b + i] == u[i] {
      assert u[i] == t[b + i] == s[a + b + i];
    }
  }

  /** The span is a piece of the candidate. */
  lemma JsonSpanPiece(c: string)
    ensures exists a :: PieceAt(c, JsonSpan(c), a)
  {
    var j := JsonSpan(c);
    if '{' !in c || j == [] {
      assert PieceAt(c, j, 0);
    }
  }

  /** The candidate is the stripped last piece of the split. */
  lemma CandidateIsStrippedPiece(response: string)
    ensures ReplyCandidate(response) == Strip(SplitLast(response, AiMarker))
  {
  }

  /** The stripped text is a piece of the text, after its leading spaces. */
  lemma StripPiece(t: string)
    ensures PieceAt(t, Strip(t), SpaceEnd(t, 0))
  {
  }

  /** The last piece of the split is a suffix of the reply. */
  lemma SplitLastPiece(response: string)
    ensures var t := SplitLast(response, AiMarker);
            PieceAt(response, t, |response| - |t|)
  {
    var t := SplitLast(response, AiMarker);
    assert response[|response| - |t|..|response|] == t;
  }

  /** What `ExtractJson` hands on is the span of the stripped last piece. */
  lemma ExtractJsonOfPiece(response: string)
    ensures ExtractJson(response) == JsonSpan(Strip(SplitLast(response, AiMarker)))
  {
    CandidateIsStrippedPiece(response);
  }

  /** A piece of a piece of a suffix lies in that suffix. */
  lemma PieceInSuffix(s: string, t: string, c: string, j: string, off: int)
    requires PieceAt(s, t, |s| - |t|) && PieceAt(t, c, off) && exists a :: PieceAt(c, j, a)
    ensures exists a :: |s| - |t| <= a && PieceAt(s, j, a)
  {
    var a :| PieceAt(c, j, a);
    PieceOfPiece(t, c, j, off, a);
    PieceOfPiece(s, t, j, |s| - |t|, off + a);
  }

  /** What `ExtractJson` hands on is a piece of the text after the last
      marker, and of the whole reply when there is no marker. */
  lemma ExtractJsonInTail(response: string)
    ensures var t := SplitLast(response, AiMarker);
            exists a :: |response| - |t| <= a && PieceAt(response, ExtractJson(response), a)
  {
    var t := SplitLast(response, AiMarker);
    SplitLastPiece(response);
    StripPiece(t);
    ExtractJsonOfPiece(response);
    JsonSpanPiece(Strip(t));
    PieceInSuffix(response, t, Strip(t), ExtractJson(response), SpaceEnd(t, 0));
  }

  /** When the stripped text after the last marker has no `{`, it is handed on
      whole; with neither marker nor `{`, that is the stripped reply. */
  lemma ExtractJsonWithoutBrace(response: string)
    ensures var t := SplitLast(response, AiMarker);
            '{' !in Strip(t) ==> ExtractJson(response) == Strip(t)
    ensures !Contains(response, AiMarker) && '{' !in Strip(response) ==>
              ExtractJson(response) == Strip(response)
  {
    ExtractJsonOfPiece(response);
  }

  /** A span that holds a `{` runs from a `{` to a `}`. */
  lemma JsonSpanBraces(j: string, c: string)
    requires j == JsonSpan(c)
    ensures '{' in j ==> j[0] == '{' && j[|j| - 1] == '}'
  {
  }

  /** What `ExtractJson` hands on, if it holds a `{`, runs from a `{` to a
      `}`. */
  lemma ExtractJsonBraces(response: string)
    ensures var j := ExtractJson(response);
            '{' in j ==> j[0] == '{' && j[|j| - 1] == '}'
  {
    JsonSpanBraces(ExtractJson(response), ReplyCandidate(response));
  }

  /** A candidate that opens a brace and never closes it yields the empty
      text, which no JSON decoder accepts. */
  lemma UnclosedBraceGivesEmptyText(c: string)
    requires '{' in c && '}' !in c
    ensures JsonSpan(c) == []
  {
    var s := Find(c, '{');
    assert forall i :: 0 <= i < |c[s..]| ==> c[s..][i] == c[s + i];
  }
}
