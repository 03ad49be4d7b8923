/**
 * What is done to a language-model reply before and around `json.loads`:
 * trim, drop a leading ```` ```json ```` or ```` ``` ```` fence and a
 * trailing ```` ``` ```` fence, trim again, decode; when decoding fails,
 * decode the greedy span from the first `{` to the last `}`.
 *
 * Decoding itself is a parameter `decode`, the partial function that
 * `json.loads` computes (`None` for `JSONDecodeError`).
 */
module LlmReply {
  import opened Wrappers
  import opened Text

  /** A decoded JSON value. */
  datatype Json =
    | Null
    | Bool(b: bool)
    | Num(x: real)
    | Str(s: string)
    | Arr(items: seq<Json>)
    | Obj(fields: map<string, Json>)

  /** Python truthiness of a decoded value. */
  predicate JsonTruthy(v: Json) {
    match v
    case Null => false
    case Bool(b) => b
    case Num(x) => x != 0.0
    case Str(s) => s != ""
    case Arr(items) => items != []
    case Obj(fields) => fields != map[]
  }

  /** `d.get(key, default)` */
  function Get(fields: map<string, Json>, key: string, default: Json): (v: Json)
    ensures key !in fields ==> v == default
    ensures key in fields ==> v == fields[key]
  {
    if key in fields then fields[key] else default
  }

  /** Drops a leading ```` ```json ```` and then a leading ```` ``` ````. */
  function DropOpeningFence(t: string): string {
    var t1 := if StartsWith(t, "```json") then t[7..] else t;
    if StartsWith(t1, "```") then t1[3..] else t1
  }

  /** Drops a trailing ```` ``` ````. */
  function DropClosingFence(t: string): string {
    if EndsWith(t, "```") then t[..|t| - 3] else t
  }

  /** The fence-stripping applied to a reply before decoding. */
  function StripFences(text: string): (r: string)
    ensures r == [] || (!IsSpace(r[0]) && !IsSpace(r[|r| - 1]))
  {
    Strip(DropClosingFence(DropOpeningFence(Strip(text))))
  }

  /** Trimmed text that neither starts nor ends with a fence. */
  predicate Unfenced(body: string) {
    Trimmed(body) && !StartsWith(body, "```") && !EndsWith(body, "```")
  }

  /** No whitespace at either end. */
  predicate Trimmed(s: string) {
    s == [] || (!IsSpace(s[0]) && !IsSpace(s[|s| - 1]))
  }

  lemma TrimStartNewline(b: string)
    requires b == [] || !IsSpace(b[0])
    ensures TrimStart("\n" + b) == b
  {
    assert ("\n" + b)[1..] == b;
  }

  lemma TrimEndNewline(b: string)
    requires b == [] || !IsSpace(b[|b| - 1])
    ensures TrimEnd(b + "\n") == b
  {
    assert (b + "\n")[..|b|] == b;
  }

  /** A trimmed body inside newlines trims back to itself. */
  lemma StripNewlines(b: string)
    requires Trimmed(b)
    ensures Strip("\n" + b + "\n") == b
  {
    if b == [] {
      assert "\n" + b + "\n" == "\n\n";
    } else {
      assert !IsSpace(b[0]) && !IsSpace(b[|b| - 1]);
      TrimStartNewline(b + "\n");
      assert "\n" + b + "\n" == "\n" + (b + "\n");
      TrimEndNewline(b);
    }
  }

  lemma NoOpeningFence(body: string)
    requires !StartsWith(body, "```")
    ensures DropOpeningFence(body) == body
  {
    if |body| >= 7 {
      assert body[..7][..3] == body[..3];
    }
  }

  lemma BareBody(body: string)
    requires Unfenced(body)
    ensures StripFences(body) == body
  {
    StripNoSpace(body);
    NoOpeningFence(body);
  }

  lemma FencedBody(body: string)
    requires Unfenced(body)
    ensures DropClosingFence(DropOpeningFence("```json\n" + body + "\n```")) == "\n" + body + "\n"
  {
    var fenced := "```json\n" + body + "\n```";
    assert StartsWith(fenced, "```json");
    var t1 := fenced[7..];
    assert t1 == "\n" + body + "\n```";
    assert t1[0] == '\n';
    assert !StartsWith(t1, "```");
    assert DropOpeningFence(fenced) == t1;
    assert EndsWith(t1, "```");
    assert t1[..|t1| - 3] == "\n" + body + "\n";
  }

  lemma FencedTrimmed(body: string)
    ensures Strip("```json\n" + body + "\n```") == "```json\n" + body + "\n```"
  {
    var fenced := "```json\n" + body + "\n```";
    assert fenced[0] == '`';
    assert fenced[|fenced| - 1] == '`';
    StripNoSpace(fenced);
  }

  lemma StripFencesOfTrimmed(t: string)
    requires Strip(t) == t
    ensures StripFences(t) == Strip(DropClosingFence(DropOpeningFence(t)))
  {
  }

  /** A body fenced as ```` ```json ```` … ```` ``` ```` on lines of its own comes back out. */
  lemma StripFencesRoundTrip(body: string)
    requires Unfenced(body)
    ensures StripFences("```json\n" + body + "\n```") == body
  {
    var fenced := "```json\n" + body + "\n```";
    var inner := DropClosingFence(DropOpeningFence(fenced));
    FencedTrimmed(body);
    StripFencesOfTrimmed(fenced);
    FencedBody(body);
    StripNewlines(body);
  }

  /** The last position of `c` in `s`, or -1. */
  function LastIndexOf(s: string, c: char): (i: int)
    ensures -1 <= i < |s|
    ensures i >= 0 ==> s[i] == c
    ensures forall k :: i < k < |s| ==> s[k] != c
  {
    if s == [] then -1
    else if s[|s| - 1] == c then |s| - 1
    else LastIndexOf(s[..|s| - 1], c)
  }

  /** `re.search(r'\{.*\}', text, re.DOTALL)`: from the first `{` to the last `}` after it. */
  function BraceSpan(t: string): (r: Option<string>)
    ensures r.Some? <==> 0 <= Find(t, "{") < LastIndexOf(t, '}')
  {
    var i := Find(t, "{");
    var j := LastIndexOf(t, '}');
    if 0 <= i < j then Some(t[i..j + 1]) else None
  }

  /** The span is the shortest-start, longest-end `{…}` slice: it opens with `{`, closes with `}`, no `{` precedes it and no `}` follows it. */
  lemma BraceSpanSpec(t: string)
    ensures BraceSpan(t).None? ==> forall i, j :: 0 <= i < j < |t| && t[i] == '{' ==> t[j] != '}'
    ensures BraceSpan(t).Some? ==>
              var span := BraceSpan(t).value;
              var i := Find(t, "{");
              && span[0] == '{' && span[|span| - 1] == '}'
              && span == t[i..i + |span|]
              && (forall k :: 0 <= k < i ==> t[k] != '{')
              && (forall k :: i + |span| <= k < |t| ==> t[k] != '}')
  {
    var i := Find(t, "{");
    forall k | 0 <= k < i ensures t[k] != '{' {
      assert !StartsWith(t[k..], "{");
      assert t[k..][..1] == [t[k]];
    }
    if BraceSpan(t).None? {
      forall a, b | 0 <= a < b < |t| && t[a] == '{' ensures t[b] != '}' {
        assert t[a..a + 1] == "{";
        ContainsAt(t, "{", a);
      }
    } else {
      assert t[i..i + 1] == "{";
    }
  }

  /** `_parse_response`: decode the unfenced reply, falling back to the brace span. */
  function ParseReply(text: string, decode: string -> Option<Json>): Option<Json> {
    var t := StripFences(text);
    match decode(t)
    case Some(v) => Some(v)
    case None =>
      match BraceSpan(t)
      case Some(span) => decode(span)
      case None => None
  }

  /** A reply that is a decodable body, bare or fenced, decodes to that body's value. */
  lemma ParseReplyOfBody(body: string, decode: string -> Option<Json>)
    requires Unfenced(body) && decode(body).Some?
    ensures ParseReply(body, decode) == decode(body)
    ensures ParseReply("```json\n" + body + "\n```", decode) == decode(body)
  {
    BareBody(body);
    StripFencesRoundTrip(body);
  }

  /** Prose around a JSON object is skipped: the brace span is decoded when the whole reply is not JSON. */
  lemma ParseReplyFallback(text: string, decode: string -> Option<Json>)
    requires decode(StripFences(text)).None?
    ensures BraceSpan(StripFences(text)).None? ==> ParseReply(text, decode).None?
    ensures BraceSpan(StripFences(text)).Some? ==> ParseReply(text, decode) == decode(BraceSpan(StripFences(text)).value)
  {
  }
}
