/** Reading a JSON document out of a language-model reply: fenced code
    blocks first, then the outermost braces, then a default. The JSON parser
    itself is a parameter `parse`, the partial function `json.loads`
    computes: the value a text denotes, or `None` when it raises
    JSONDecodeError. */
module Extract {
  import opened Wrappers
  import opened Text
  import opened Values

  const Fence: string := "```"

  /** The text of one fenced block as it is handed to the parser: an
      optional "json" tag dropped and white space stripped. The pattern's
      `\s*` after the tag only moves white space out of the captured group,
      and `strip()` removes it anyway. */
  function BlockText(inner: string): string
  {
    if |inner| >= 4 && inner[..4] == "json" then Strip(inner[4..]) else Strip(inner)
  }

  /** The blocks `re.findall(r'```(?:json)?\s*([\s\S]*?)```', s)` captures
      from position `from` on. A block opens at the first fence at or after
      `from` and closes at the first fence at least three characters later
      (neither the tag nor the white space holds a backtick, so the lazy
      group ends there whether or not the tag matched); the scan resumes
      after the closing fence. An opening fence without a closing one ends
      the scan: no later fence can close. */
  function FencedBlocks(s: string, from: nat): seq<string>
    decreases |s| - from
  {
    match FindFrom(s, Fence, from)
    case None => []
    case Some(open) =>
      match FindFrom(s, Fence, open + 3)
      case None => []
      case Some(close) => [BlockText(s[open + 3..close])] + FencedBlocks(s, close + 3)
  }

  /** Without a fence from `from` on there is no block. */
  lemma NoFenceNoBlock(s: string, from: nat)
    ensures FindFrom(s, Fence, from).None? ==> FencedBlocks(s, from) == []
  {
  }

  /** The first candidate that parses, with its position: every candidate
      before it fails to parse. */
  function FirstParse(cands: seq<string>, parse: string -> Option<Value>): (r: Option<Value>)
    ensures r.None? <==> forall i :: 0 <= i < |cands| ==> parse(cands[i]).None?
    ensures r.Some? ==> exists i :: 0 <= i < |cands| && parse(cands[i]) == r &&
                                    forall j :: 0 <= j < i ==> parse(cands[j]).None?
  {
    if cands == [] then None
    else if parse(cands[0]).Some? then
      assert parse(cands[0]) == parse(cands[0]);
      parse(cands[0])
    else
      var r := FirstParse(cands[1..], parse);
      if r.Some? then
        var i :| 0 <= i < |cands[1..]| && parse(cands[1..][i]) == r &&
                 forall j :: 0 <= j < i ==> parse(cands[1..][j]).None?;
        assert parse(cands[i + 1]) == r;
        r
      else r
  }

  /** `s[s.find('{'):s.rfind('}') + 1]` when both braces occur; the slice is
      empty when the last '}' comes before the first '{'. */
  function BraceSpan(s: string): (r: Option<string>)
    ensures r.Some? <==> FindChar(s, '{').Some? && RFindChar(s, '}').Some?
    ensures r.Some? ==> var start, end := FindChar(s, '{').value, RFindChar(s, '}').value;
      r.value == if start <= end then s[start..end + 1] else ""
  {
    match (FindChar(s, '{'), RFindChar(s, '}'))
    case (Some(start), Some(end)) => Some(if start <= end then s[start..end + 1] else "")
    case _ => None
  }

  /** `extract_json_from_response`: the parse of the first fenced block
      that parses; otherwise the parse of the brace span; otherwise
      `default`. A parse failure never escapes. */
  function ExtractJson(response: string, parse: string -> Option<Value>, default: Value): (r: Value)
    ensures FencedBlocks(response, 0) == [] && FindChar(response, '{').None? ==> r == default
  {
    match FirstParse(FencedBlocks(response, 0), parse)
    case Some(v) => v
    case None =>
      match BraceSpan(response)
      case Some(span) => parse(span).GetOr(default)
      case None => default
  }

  // ---------------------------------------------------------------------
  // Properties

  /** A reply with a block that parses yields the parse of the first such
      block, whatever follows it. */
  lemma FromFirstBlock(response: string, parse: string -> Option<Value>, default: Value, i: nat)
    requires i < |FencedBlocks(response, 0)|
    requires parse(FencedBlocks(response, 0)[i]).Some?
    requires forall j :: 0 <= j < i ==> parse(FencedBlocks(response, 0)[j]).None?
    ensures ExtractJson(response, parse, default) == parse(FencedBlocks(response, 0)[i]).value
  {
    FirstParseAt(FencedBlocks(response, 0), parse, i);
  }

  /** The first candidate that parses is the one chosen. */
  lemma FirstParseAt(cands: seq<string>, parse: string -> Option<Value>, i: nat)
    requires i < |cands| && parse(cands[i]).Some?
    requires forall j :: 0 <= j < i ==> parse(cands[j]).None?
    ensures FirstParse(cands, parse) == parse(cands[i])
  {
    var r := FirstParse(cands, parse);
    var k :| 0 <= k < |cands| && parse(cands[k]) == r && forall j :: 0 <= j < k ==> parse(cands[j]).None?;
    assert !(k < i) && !(i < k);
  }

  /** When no block parses and both braces occur in order, the reply is
      the parse of the span from the first '{' to the last '}', or the
      default when that span does not parse. */
  lemma FromBraces(response: string, parse: string -> Option<Value>, default: Value)
    requires forall i :: 0 <= i < |FencedBlocks(response, 0)| ==> parse(FencedBlocks(response, 0)[i]).None?
    requires FindChar(response, '{').Some? && RFindChar(response, '}').Some?
    requires FindChar(response, '{').value <= RFindChar(response, '}').value
    ensures var start, end := FindChar(response, '{').value, RFindChar(response, '}').value;
      ExtractJson(response, parse, default) == parse(response[start..end + 1]).GetOr(default)
  {
    assert FirstParse(FencedBlocks(response, 0), parse).None?;
    assert BraceSpan(response).Some?;
  }

  /** When no block parses and the reply lacks a brace, or has its last '}'
      before its first '{' (the empty slice never parses), the default
      comes back. */
  lemma ToDefault(response: string, parse: string -> Option<Value>, default: Value)
    requires forall i :: 0 <= i < |FencedBlocks(response, 0)| ==> parse(FencedBlocks(response, 0)[i]).None?
    requires parse("").None?
    requires FindChar(response, '{').None? || RFindChar(response, '}').None? ||
             RFindChar(response, '}').value < FindChar(response, '{').value
    ensures ExtractJson(response, parse, default) == default
  {
    assert FirstParse(FencedBlocks(response, 0), parse).None?;
    assert BraceSpan(response).None? || BraceSpan(response) == Some("");
  }

  /** A reply that opens with a fence and closes with the next one forms
      exactly one block. */
  lemma OneBlock(s: string, close: nat)
    requires close + 3 == |s| && 3 <= close
    requires FindFrom(s, Fence, 0) == Some(0) && FindFrom(s, Fence, 3) == Some(close)
    ensures FencedBlocks(s, 0) == [BlockText(s[3..close])]
  {
    assert FindFrom(s, Fence, close + 3).None?;
    assert FencedBlocks(s, close + 3) == [];
  }

  /** No fence starts inside a tagged prefix followed by backtick-free text. */
  lemma NoFenceInside(a: string, s: string, doc: string)
    requires a == Fence + "json" + doc && |a| <= |s| && s[..|a|] == a
    requires forall k :: 0 <= k < |doc| ==> doc[k] != '`'
    ensures forall k :: 3 <= k < |a| ==> !OccursAt(s, Fence, k)
  {
    forall k | 3 <= k < |a| ensures !OccursAt(s, Fence, k) {
      assert s[k] == a[k];
      if k >= 7 {
        assert a[k] == doc[k - 7];
      } else {
        assert a[k] == "json"[k - 3];
      }
      assert k + 3 <= |s| ==> s[k..k + 3][0] == s[k];
    }
  }

  /** A document wrapped in a "json"-tagged fence, with no backtick inside,
      is read back as the one block it forms: the block text is the
      document stripped of surrounding white space. */
  lemma {:induction false} WrappedBlock(doc: string)
    requires forall k :: 0 <= k < |doc| ==> doc[k] != '`'
    ensures FencedBlocks(Fence + "json" + doc + Fence, 0) == [Strip(doc)]
  {
    var a := Fence + "json" + doc;
    var s := a + Fence;
    var close := |a|;
    assert s[..close] == a;
    assert OccursAt(s, Fence, 0) by { assert s[0..3] == a[0..3] == Fence; }
    FindFromAt(s, Fence, 0, 0);
    NoFenceInside(a, s, doc);
    assert OccursAt(s, Fence, close) by { assert s[close..close + 3] == Fence; }
    FindFromAt(s, Fence, 3, close);
    OneBlock(s, close);
    var inner := s[3..close];
    assert inner == "json" + doc by { assert inner == a[3..]; }
    assert inner[..4] == "json" && inner[4..] == doc;
  }

  /** A wrapped document that parses is what the extraction returns. */
  lemma WrappedRoundTrip(doc: string, parse: string -> Option<Value>, default: Value)
    requires forall k :: 0 <= k < |doc| ==> doc[k] != '`'
    requires parse(Strip(doc)).Some?
    ensures ExtractJson(Fence + "json" + doc + Fence, parse, default) == parse(Strip(doc)).value
  {
    WrappedBlock(doc);
    FromFirstBlock(Fence + "json" + doc + Fence, parse, default, 0);
  }
}
