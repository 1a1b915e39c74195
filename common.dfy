/** Values shared by every module of the model: optional and failing results,
    the JSON-like values the REST API exchanges, JavaScript truthiness, and the
    whitespace sets of Python's `str.strip()` and JavaScript's `String.prototype.trim()`. */
module Common {

  datatype Option<+T> = None | Some(value: T)

  /** The outcome of an awaited API call: the resolved value or the rejection. */
  datatype Result<+T, +E> = Ok(value: T) | Err(error: E)

  /** A JSON value as the REST API sends and receives it. */
  datatype Json =
    | JNull
    | JBool(b: bool)
    | JNum(n: int)
    | JStr(s: string)
    | JArr(elems: seq<Json>)
    | JObj(fields: map<string, Json>)

  /** JavaScript truthiness of a JSON value (NaN is not modelled). */
  predicate Truthy(v: Json) {
    match v
    case JNull => false
    case JBool(b) => b
    case JNum(n) => n != 0
    case JStr(s) => s != ""
    case _ => true
  }

  /** Concatenation is associative. */
  lemma AppendAssoc<T>(x: seq<T>, y: seq<T>, z: seq<T>)
    ensures x + (y + z) == (x + y) + z
  {
  }

  /** The first element and the rest of `a + b` when `a` is not empty. */
  lemma HeadTailAppend<T>(a: seq<T>, b: seq<T>)
    requires a != []
    ensures (a + b)[0] == a[0] && (a + b)[1..] == a[1..] + b
  {
  }

  /** `obj.key || ''` for a field that holds text: the text when it is there, otherwise ''. */
  function TextOr(obj: map<string, Json>, key: string): (r: string)
    ensures key in obj && obj[key].JStr? ==> r == obj[key].s
    ensures !(key in obj && obj[key].JStr?) ==> r == ""
  {
    if key in obj && obj[key].JStr? then obj[key].s else ""
  }

  /** The characters for which Python's `str.isspace()` holds. */
  const PyWhitespace: set<char> :=
    {' ', '\t', '\n', '\r', '\U{0B}', '\U{0C}', '\U{1C}', '\U{1D}', '\U{1E}', '\U{1F}',
     '\U{85}', '\U{A0}', '\U{1680}', '\U{2000}', '\U{2001}', '\U{2002}', '\U{2003}',
     '\U{2004}', '\U{2005}', '\U{2006}', '\U{2007}', '\U{2008}', '\U{2009}', '\U{200A}',
     '\U{2028}', '\U{2029}', '\U{202F}', '\U{205F}', '\U{3000}'}

  /** The WhiteSpace and LineTerminator characters that JavaScript's `trim()` removes. */
  const JsWhitespace: set<char> :=
    {' ', '\t', '\n', '\r', '\U{0B}', '\U{0C}', '\U{A0}', '\U{FEFF}', '\U{1680}',
     '\U{2000}', '\U{2001}', '\U{2002}', '\U{2003}', '\U{2004}', '\U{2005}', '\U{2006}',
     '\U{2007}', '\U{2008}', '\U{2009}', '\U{200A}', '\U{2028}', '\U{2029}', '\U{202F}',
     '\U{205F}', '\U{3000}'}

  /** Every character of `s` is in `ws`. */
  predicate AllIn(s: string, ws: set<char>) {
    forall k :: 0 <= k < |s| ==> s[k] in ws
  }

  /** `s` without its trailing characters from `ws`. */
  function TrimEnd(s: string, ws: set<char>): (r: string)
    ensures |r| <= |s| && r == s[..|r|]
    ensures AllIn(s[|r|..], ws)
    ensures r != [] ==> r[|r| - 1] !in ws
  {
    if s != [] && s[|s| - 1] in ws then TrimEnd(s[..|s| - 1], ws) else s
  }

  /** `r` is `s` with a prefix and a suffix of characters from `ws` cut off. */
  predicate IsMiddle(r: string, s: string, ws: set<char>) {
    exists i, j :: 0 <= i <= j <= |s| && r == s[i..j] && AllIn(s[..i], ws) && AllIn(s[j..], ws)
  }

  /** Cutting one more leading character from `ws` still leaves a middle. */
  lemma MiddleShift(r: string, s: string, ws: set<char>)
    requires s != [] && s[0] in ws && IsMiddle(r, s[1..], ws)
    ensures IsMiddle(r, s, ws)
  {
    var t := s[1..];
    var i, j :| 0 <= i <= j <= |t| && r == t[i..j] && AllIn(t[..i], ws) && AllIn(t[j..], ws);
    assert t[i..j] == s[i + 1..j + 1];
    assert s[j + 1..] == t[j..];
    assert forall k :: 1 <= k < i + 1 ==> s[k] == t[..i][k - 1];
  }

  /** `s` without its leading and trailing characters from `ws`: Python's
      `strip()` with `PyWhitespace`, JavaScript's `trim()` with `JsWhitespace`. */
  function Strip(s: string, ws: set<char>): (r: string)
    ensures |r| <= |s|
    ensures r == [] || (r[0] !in ws && r[|r| - 1] !in ws)
    ensures r == [] <==> AllIn(s, ws)
    ensures IsMiddle(r, s, ws)
    decreases |s|
  {
    if s != [] && s[0] in ws then
      var t := s[1..];
      var r := Strip(t, ws);
      assert AllIn(s, ws) <==> AllIn(t, ws) by {
        assert forall k :: 1 <= k < |s| ==> s[k] == t[k - 1];
      }
      MiddleShift(r, s, ws);
      r
    else
      var r := TrimEnd(s, ws);
      assert r == [] ==> s[|r|..] == s;
      assert r == s[0..|r|] && AllIn(s[..0], ws);
      r
  }

  /** Stripping only removes characters. */
  lemma {:induction false} StripSubstring(s: string, ws: set<char>)
    ensures forall c :: c in Strip(s, ws) ==> c in s
    decreases |s|
  {
    if s != [] && s[0] in ws {
      StripSubstring(s[1..], ws);
    } else {
      var r := TrimEnd(s, ws);
      forall c | c in r
        ensures c in s
      {
        var k :| 0 <= k < |r| && r[k] == c;
        assert s[k] == c;
      }
    }
  }

  /** Neither end of `s` is a character from `ws` (so `s` is not empty). */
  predicate NoEdgeSpace(s: string, ws: set<char>) {
    s != [] && s[0] !in ws && s[|s| - 1] !in ws
  }

  /** Stripping leaves a string whose ends are not blank unchanged. */
  lemma StripNoEdgeSpace(s: string, ws: set<char>)
    requires NoEdgeSpace(s, ws)
    ensures Strip(s, ws) == s
  {
    assert TrimEnd(s, ws) == s;
  }

  /** Stripping twice removes nothing more. */
  lemma StripIdempotent(s: string, ws: set<char>)
    ensures Strip(Strip(s, ws), ws) == Strip(s, ws)
  {
    var r := Strip(s, ws);
    if r != [] {
      StripNoEdgeSpace(r, ws);
    }
  }

  /** JavaScript's `s.trim()`. */
  function Trim(s: string): (r: string)
    ensures r == [] <==> AllIn(s, JsWhitespace)
    ensures r == [] || (r[0] !in JsWhitespace && r[|r| - 1] !in JsWhitespace)
    ensures IsMiddle(r, s, JsWhitespace)
  {
    Strip(s, JsWhitespace)
  }
}
