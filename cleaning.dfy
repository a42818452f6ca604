/** The record cleaners' building blocks. A JSON record is a dict from
    field names to values. Four cleaners rewrite every entry of the dict
    they are given in place; three copy the record into a fresh dict,
    blanking empty strings, and then patch a few fields. */
module Cleaning {
  import opened Text
  import opened Values

  /** A Python dict the cleaners update in place. */
  class Dict {
    var entries: map<string, Value>

    constructor (entries: map<string, Value>)
      ensures this.entries == entries
    {
      this.entries := entries;
    }
  }

  /** Every entry rewritten by `rule`, keys kept. */
  function Rewritten(m: map<string, Value>, rule: (string, Value) -> Value): (r: map<string, Value>)
    ensures r.Keys == m.Keys
    ensures forall k | k in m :: r[k] == rule(k, m[k])
  {
    map k | k in m :: rule(k, m[k])
  }

  /** `for key, value in d.items(): d[key] = rule(key, value)`. Writing to a
      key already present does not disturb the iteration, and each step
      reads only its own key, so the order of the keys does not matter:
      every entry ends rewritten from its original value. */
  method RewriteEach(d: Dict, rule: (string, Value) -> Value)
    modifies d
    ensures d.entries == Rewritten(old(d.entries), rule)
  {
    var original := d.entries;
    var todo := original.Keys;
    while todo != {}
      invariant todo <= original.Keys
      invariant d.entries.Keys == original.Keys
      invariant forall k | k in original :: d.entries[k] == if k in todo then original[k] else rule(k, original[k])
      decreases |todo|
    {
      var key :| key in todo;
      var value := d.entries[key];
      d.entries := d.entries[key := rule(key, value)];
      todo := todo - {key};
    }
  }

  // ---------------------------------------------------------------------
  // The weblock and webbing rule.

  /** Fields whose empty string the weblock and webbing cleaners keep. */
  const KeepsBlank: set<string> := {"name", "brand", "materialType"}

  /** One entry of `clean_weblock_data` / `clean_webbing_data`: an empty
      width or weight becomes 0, any other empty field outside KeepsBlank
      becomes None, a string `isa_certified` becomes its truth value, and
      everything else becomes its `str` (None stays None). */
  function StringifyEntry(key: string, value: Value): Value
  {
    if key in {"width", "weight"} && value == VStr("") then VInt(0)
    else if key !in KeepsBlank && value == VStr("") then VNull
    else if key == "isa_certified" then (if value.VStr? then VBool(value.str != "") else value)
    else if value != VNull then VStr(ToStr(value))
    else VNull
  }

  /** After the weblock/webbing rule every field holds None or text, except
      an emptied width or weight (0) and `isa_certified` (a bool, or the
      non-string value it had). Case by case: an empty width or weight
      becomes 0, an empty name, brand or materialType stays "", any other
      empty field becomes None, and a non-string `isa_certified` is kept. */
  lemma StringifiedShape(key: string, value: Value)
    ensures var r := StringifyEntry(key, value);
            r == VNull || r.VStr?
            || (key in {"width", "weight"} && r == VInt(0))
            || (key == "isa_certified" && (r.VBool? || (r == value && !value.VStr?)))
    ensures key in {"width", "weight"} && value == VStr("") ==> StringifyEntry(key, value) == VInt(0)
    ensures key !in KeepsBlank && key !in {"width", "weight"} && value == VStr("") ==> StringifyEntry(key, value) == VNull
    ensures key in KeepsBlank && value == VStr("") ==> StringifyEntry(key, value) == VStr("")
    ensures key == "isa_certified" && !value.VStr? ==> StringifyEntry(key, value) == value
  {
  }

  /** Outside `isa_certified`, a field that was not empty shows the same
      text after the rule as before, so classifiers reading `str(field)`
      see the raw text. */
  lemma StringifyKeepsText(key: string, value: Value)
    requires key != "isa_certified" && value != VStr("")
    ensures ToStr(StringifyEntry(key, value)) == ToStr(value)
  {
  }

  /** The rule is not idempotent: an empty width becomes 0, and cleaning
      again turns that 0 into the text "0". */
  lemma StringifyTwiceChangesEmptyWidth()
    ensures StringifyEntry("width", VStr("")) == VInt(0)
    ensures StringifyEntry("width", StringifyEntry("width", VStr(""))) == VStr("0")
  {
    assert IntText(0) == "0";
  }

  /** An empty `isa_certified` becomes None, not False: the blank test runs
      before the `isa_certified` test. Every other string becomes True,
      "no" and "false" included. */
  lemma StringifyBlankCertified()
    ensures StringifyEntry("isa_certified", VStr("")) == VNull
    ensures forall s | s != "" :: StringifyEntry("isa_certified", VStr(s)) == VBool(true)
    ensures StringifyEntry("isa_certified", VStr("false")) == VBool(true)
  {
  }

  // ---------------------------------------------------------------------
  // The grip and leash-ring rule.

  /** One entry of `clean_grip_data` / `clean_leashring_data`, which differ
      only in the fields whose empty string survives: an empty field outside
      `keepsBlank` becomes None, `isa_certified` becomes the truth value of
      a string and False for None, and everything else becomes its `str`. */
  function CertifiedEntry(keepsBlank: set<string>, key: string, value: Value): Value
  {
    if key !in keepsBlank && value == VStr("") then VNull
    else if key == "isa_certified" then
      (if value == VNull then VBool(false) else if value.VStr? then VBool(value.str != "") else value)
    else if value != VNull then VStr(ToStr(value))
    else VNull
  }

  /** When `isa_certified` keeps its blank, the rule gives it a bool for every
      string and for None, and leaves any other value alone. */
  lemma CertifiedFlag(keepsBlank: set<string>, value: Value)
    requires "isa_certified" in keepsBlank
    ensures var r := CertifiedEntry(keepsBlank, "isa_certified", value);
            && (value.VStr? ==> r == VBool(value.str != ""))
            && (value == VNull ==> r == VBool(false))
            && (!value.VStr? && value != VNull ==> r == value)
  {
  }

  /** Every other field ends as None or text. */
  lemma CertifiedShape(keepsBlank: set<string>, key: string, value: Value)
    requires key != "isa_certified"
    ensures var r := CertifiedEntry(keepsBlank, key, value);
            (r == VNull || r.VStr?)
            && (r == VNull <==> value == VNull || (key !in keepsBlank && value == VStr("")))
  {
  }

  /** A list field is turned into the text of the list. */
  lemma CertifiedListIsText(keepsBlank: set<string>, key: string, xs: seq<Value>)
    requires key != "isa_certified"
    ensures CertifiedEntry(keepsBlank, key, VList(xs)) == VStr(ToStr(VList(xs)))
  {
  }

  // ---------------------------------------------------------------------
  // The fresh-dict cleaners (tree pros, starter kits, trickline kits).

  /** `None if value == "" else value`. */
  function BlankToNull(v: Value): Value
  {
    if v == VStr("") then VNull else v
  }

  /** The fresh dict the copy loop builds. */
  function Blanked(m: map<string, Value>): (r: map<string, Value>)
    ensures r.Keys == m.Keys
  {
    map k | k in m :: BlankToNull(m[k])
  }

  /** `cleaned = {}; for key, value in d.items(): cleaned[key] = None if
      value == "" else value`. */
  method CopyBlanked(d: map<string, Value>) returns (cleaned: map<string, Value>)
    ensures cleaned == Blanked(d)
  {
    cleaned := map[];
    var todo := d.Keys;
    while todo != {}
      invariant todo <= d.Keys
      invariant cleaned.Keys == d.Keys - todo
      invariant forall k | k in cleaned :: cleaned[k] == BlankToNull(d[k])
      decreases |todo|
    {
      var key :| key in todo;
      var value := d[key];
      cleaned := cleaned[key := if value == VStr("") then VNull else value];
      todo := todo - {key};
    }
  }

  /** The copy keeps every key, holds no empty string, changes nothing but
      empty strings, and copying it again changes nothing. */
  lemma BlankedProperties(m: map<string, Value>)
    ensures forall k | k in Blanked(m) :: Blanked(m)[k] != VStr("")
    ensures forall k | k in m && m[k] != VStr("") :: Blanked(m)[k] == m[k]
    ensures forall k | k in m && m[k] == VStr("") :: Blanked(m)[k] == VNull
    ensures Blanked(Blanked(m)) == Blanked(m)
  {
  }

  /** The flag coercion: a string is true when, lower-cased, it is "true",
      "1" or "yes"; None is False; anything else is its truth value. */
  function CoerceFlag(v: Value): (r: Value)
    ensures r.VBool?
  {
    if v.VStr? then VBool(Lower(v.str) == "true" || Lower(v.str) == "1" || Lower(v.str) == "yes")
    else if v == VNull then VBool(false)
    else VBool(Truthy(v))
  }

  /** A coerced flag stays as it is when coerced again. */
  lemma CoerceFlagIdempotent(v: Value)
    ensures CoerceFlag(CoerceFlag(v)) == CoerceFlag(v)
  {
  }

  /** Strings other than the three accepted words are False, whatever their
      truth value in Python; the accepted words count in any letter case. */
  lemma CoerceFlagWords()
    ensures forall s :: CoerceFlag(VStr(s)) == VBool(Lower(s) in {"true", "1", "yes"})
    ensures forall s :: CoerceFlag(VStr(s)) == CoerceFlag(VStr(Lower(s))) && CoerceFlag(VStr(s)) == CoerceFlag(VStr(Upper(s)))
    ensures CoerceFlag(VStr("no")) == VBool(false)
    ensures CoerceFlag(VStr("Y")) == VBool(false)
    ensures CoerceFlag(VStr("YES")) == VBool(true)
    ensures CoerceFlag(VStr("1")) == VBool(true)
  {
    assert Lower("no") == "no";
    assert Lower("Y") == "y";
    assert Lower("YES") == "yes";
    assert Lower("1") == "1";
    forall s
      ensures CoerceFlag(VStr(s)) == CoerceFlag(VStr(Lower(s)))
      ensures CoerceFlag(VStr(s)) == CoerceFlag(VStr(Upper(s)))
    {
      LowerIdempotent(s);
      LowerOfUpper(s);
    }
  }

  /** `if key in cleaned: cleaned[key] = <coerced flag>`: a flag missing
      from the record stays missing. */
  function PatchFlag(m: map<string, Value>, key: string): (r: map<string, Value>)
    ensures r.Keys == m.Keys
    ensures key in m ==> r[key].VBool?
    ensures forall k | k in m && k != key :: r[k] == m[k]
  {
    if key in m then m[key := CoerceFlag(m[key])] else m
  }
}
