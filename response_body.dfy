/**
 * The decoded JSON body of a generateContent reply, and the lookup
 * `result['candidates'][0]['content']['parts'][0]['text']` that main.py
 * performs on it, with Python's subscript semantics: a missing key or an
 * index past the end raises KeyError or IndexError (caught by the inner
 * handler), while subscripting a value of the wrong kind raises TypeError
 * (not caught there, so it reaches the outer handler).
 */
module ResponseBody {

  /** A decoded JSON value. Numbers are kept as integers. */
  datatype Json =
    | JNull
    | JBool(b: bool)
    | JNumber(n: int)
    | JString(s: string)
    | JArray(items: seq<Json>)
    | JObject(fields: map<string, Json>)

  /** One subscript: `x['name']` or `x[position]`. */
  datatype Step = Key(name: string) | Index(position: nat)

  /** What a chain of subscripts yields. */
  datatype Lookup =
    | Found(value: Json)
    | Missing     // KeyError or IndexError
    | WrongType   // TypeError: the value cannot be subscripted that way

  /** One Python subscript on a decoded JSON value. */
  function At(j: Json, step: Step): Lookup
  {
    match step
    case Key(name) =>
      (match j
       case JObject(fields) => if name in fields then Found(fields[name]) else Missing
       case _ => WrongType)
    case Index(i) =>
      (match j
       case JArray(items) => if i < |items| then Found(items[i]) else Missing
       // a string yields its i-th character as a one-character string
       case JString(s) => if i < |s| then Found(JString([s[i]])) else Missing
       // JSON keys are strings, so an integer key is never present
       case JObject(_) => Missing
       case _ => WrongType)
  }

  /** Applies the subscripts of `path` left to right, stopping at the first failure. */
  function Follow(j: Json, path: seq<Step>): Lookup
    decreases |path|
  {
    if path == [] then Found(j)
    else
      match At(j, path[0])
      case Found(v) => Follow(v, path[1..])
      case failure => failure
  }

  /** The path to the generated text in a generateContent reply. */
  const TextPath: seq<Step> :=
    [Key("candidates"), Index(0), Key("content"), Key("parts"), Index(0), Key("text")]

  /** The generated text of a reply body, or why it cannot be read. */
  function ExtractText(body: Json): (r: Lookup)
    ensures !body.JObject? ==> r == WrongType
    ensures body.JObject? && "candidates" !in body.fields ==> r == Missing
    ensures body.JObject? && "candidates" in body.fields && body.fields["candidates"] == JArray([]) ==> r == Missing
  {
    Follow(body, TextPath)
  }

  /** The smallest JSON value in which `path` leads to `leaf`. */
  function Build(path: seq<Step>, leaf: Json): Json
    decreases |path|
  {
    if path == [] then leaf
    else
      var inner := Build(path[1..], leaf);
      match path[0]
      case Key(name) => JObject(map[name := inner])
      case Index(i) => JArray(seq(i + 1, _ => inner))
  }

  /** The smallest reply body carrying `text`. */
  function SuccessBody(text: Json): Json
  {
    Build(TextPath, text)
  }

  /** Following a path through the value built for it reaches the leaf. */
  lemma {:induction false} FollowBuild(path: seq<Step>, leaf: Json)
    ensures Follow(Build(path, leaf), path) == Found(leaf)
    decreases |path|
  {
    if path != [] {
      FollowBuild(path[1..], leaf);
    }
  }

  /** The smallest reply body yields exactly the text it carries. */
  lemma ExtractSuccessBody(text: Json)
    ensures ExtractText(SuccessBody(text)) == Found(text)
  {
    FollowBuild(TextPath, text);
  }

  /**
   * Whether a reply body has the text path, whatever other fields it holds:
   * an object with a non-empty `candidates` list whose first item is an
   * object with a `content` object, whose `parts` list is non-empty and
   * whose first part is an object with a `text` field.
   */
  predicate HasTextPath(body: Json)
  {
    body.JObject? && "candidates" in body.fields &&
    var candidates := body.fields["candidates"];
    candidates.JArray? && |candidates.items| > 0 &&
    var first := candidates.items[0];
    first.JObject? && "content" in first.fields &&
    var content := first.fields["content"];
    content.JObject? && "parts" in content.fields &&
    var parts := content.fields["parts"];
    parts.JArray? && |parts.items| > 0 &&
    var part := parts.items[0];
    part.JObject? && "text" in part.fields
  }

  /** The text a body with the text path carries. */
  function TextAt(body: Json): Json
    requires HasTextPath(body)
  {
    body.fields["candidates"].items[0].fields["content"].fields["parts"].items[0].fields["text"]
  }

  /**
   * The lookup succeeds exactly on bodies that have the text path, and then
   * yields the text found there.
   */
  lemma ExtractTextFound(body: Json)
    ensures ExtractText(body).Found? <==> HasTextPath(body)
    ensures HasTextPath(body) ==> ExtractText(body).value == TextAt(body)
  {
  }
}
