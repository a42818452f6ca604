/** The values a JSON record holds once Python has read it, with the three
    Python built-ins the loaders apply to them: `str(v)`, `bool(v)` and
    `record.get(key, default)`. */
module Values {
  import opened Text

  /** A JSON value: `None`, a string, an integer, a boolean, a list, or any
      other object (a float, a nested dict), which carries the text `str()`
      gives for it and its truth value. */
  datatype Value =
    | VNull
    | VStr(str: string)
    | VInt(num: int)
    | VBool(flag: bool)
    | VList(items: seq<Value>)
    | VOther(display: string, truthy: bool)

  /** Python's `str(v)`. */
  function ToStr(v: Value): string
  {
    match v
    case VNull => "None"
    case VStr(s) => s
    case VInt(n) => IntText(n)
    case VBool(b) => if b then "True" else "False"
    case VList(xs) => "[" + ReprItems(xs) + "]"
    case VOther(d, _) => d
  }

  /** The items of a list as `str` of the list joins them: each by its
      `repr`, where strings are single-quoted and everything else prints as
      its `str`. */
  function ReprItems(xs: seq<Value>): string
  {
    if xs == [] then ""
    else
      var first := if xs[0].VStr? then "'" + xs[0].str + "'" else ToStr(xs[0]);
      if |xs| == 1 then first else first + ", " + ReprItems(xs[1..])
  }

  function DigitChar(d: int): char
    requires 0 <= d < 10
  {
    "0123456789"[d]
  }

  function NatText(n: nat): (r: string)
    ensures r != []
  {
    if n < 10 then [DigitChar(n)] else NatText(n / 10) + [DigitChar(n % 10)]
  }

  function IntText(n: int): string
  {
    if n < 0 then "-" + NatText(-n) else NatText(n)
  }

  /** Python's `bool(v)`. */
  predicate Truthy(v: Value)
  {
    match v
    case VNull => false
    case VStr(s) => s != ""
    case VInt(n) => n != 0
    case VBool(b) => b
    case VList(xs) => xs != []
    case VOther(_, t) => t
  }

  /** Python's `v or dflt`. */
  function OrElse(v: Value, dflt: Value): (r: Value)
    ensures Truthy(v) ==> r == v
    ensures !Truthy(v) ==> r == dflt
  {
    if Truthy(v) then v else dflt
  }

  /** Python's `record.get(key, default)`. */
  function Get(m: map<string, Value>, key: string, dflt: Value): (r: Value)
    ensures key in m ==> r == m[key]
    ensures key !in m ==> r == dflt
  {
    if key in m then m[key] else dflt
  }

  /** `str` gives the empty text only for the empty string and for an
      opaque object that prints as nothing. */
  lemma ToStrEmpty(v: Value)
    ensures ToStr(v) == "" ==> v == VStr("") || (v.VOther? && v.display == "")
  {
    if v.VInt? {
      if v.num < 0 { assert |IntText(v.num)| > 0; }
    }
  }

  /** The `str` of a list shows each string item verbatim between two pieces
      of text. */
  lemma {:induction false} StringItemInReprItems(xs: seq<Value>, j: int) returns (a: string, b: string)
    requires 0 <= j < |xs| && xs[j].VStr?
    ensures ReprItems(xs) == a + xs[j].str + b
    decreases j
  {
    if j == 0 {
      a := "'";
      b := if |xs| == 1 then "'" else "'" + ", " + ReprItems(xs[1..]);
    } else {
      assert xs[j] == xs[1..][j - 1];
      var a', b' := StringItemInReprItems(xs[1..], j - 1);
      a := (if xs[0].VStr? then "'" + xs[0].str + "'" else ToStr(xs[0])) + ", " + a';
      b := b';
    }
  }

  lemma StringItemInListText(xs: seq<Value>, j: int) returns (a: string, b: string)
    requires 0 <= j < |xs| && xs[j].VStr?
    ensures ToStr(VList(xs)) == a + xs[j].str + b
  {
    var a', b' := StringItemInReprItems(xs, j);
    a := "[" + a';
    b := b' + "]";
  }
}
