/** The profile store of the page: reading the saved profile back, validating and
    normalising the profile form, and writing the record to local storage. */
module ProfileStore {
  import opened Wrappers
  import opened Web
  import opened Strings

  /** The one local-storage key the page uses. */
  const PROFILE_KEY := "dawa_pahchan_profile"

  /** The contents of local storage: each key's stored text. */
  type Storage = map<string, Body>

  /** The profile form as read on save: the three text inputs and the `data-value`
      of the selected gender and pregnancy buttons (`""` when none is selected). */
  datatype ProfileForm = ProfileForm(age: string, weight: string, allergies: string, gender: string, pregnant: string)

  /** The record a successful save writes; `age` is `None` where `parseInt` gave NaN. */
  datatype Profile = Profile(age: Option<int>, gender: string, weight: real, pregnant: bool, allergies: string)

  datatype SaveError = AgeRequired | GenderRequired

  /** An optional sign: whether it was `-`, and the text after it. */
  function SplitSign(t: string): (bool, string) {
    if t != [] && (t[0] == '-' || t[0] == '+') then (t[0] == '-', t[1..]) else (false, t)
  }

  /** `parseInt(s, 10)`: leading whitespace, an optional sign, then the longest run
      of decimal digits; `None` (NaN) when there is no digit. */
  function ParseInt(s: string): (r: Option<int>)
    ensures r.None? <==> DigitPrefix(SplitSign(DropLeading(s, JsWhitespace)).1) == []
  {
    var (neg, u) := SplitSign(DropLeading(s, JsWhitespace));
    var ds := DigitPrefix(u);
    if ds == [] then None else Some(if neg then -(DigitsValue(ds) as int) else DigitsValue(ds))
  }

  lemma {:induction false} DigitPrefixOfNumeral(ds: string, rest: string)
    requires forall k :: 0 <= k < |ds| ==> IsDigit(ds[k])
    requires rest == [] || !IsDigit(rest[0])
    ensures DigitPrefix(ds + rest) == ds
  {
    if ds != [] {
      assert (ds + rest)[1..] == ds[1..] + rest;
      DigitPrefixOfNumeral(ds[1..], rest);
    }
  }

  /** `parseInt` reads a numeral back, whatever non-digit text follows it
      (`"25"`, `"25.5"` and `"25 years"` all give 25). */
  lemma ParseIntReadsNumeral(n: nat, rest: string)
    requires rest == [] || !IsDigit(rest[0])
    ensures ParseInt(NatToDecimal(n) + rest) == Some(n)
    ensures ParseInt("-" + NatToDecimal(n) + rest) == Some(-(n as int))
  {
    var d := NatToDecimal(n);
    var t := d + rest;
    assert t[0] == d[0];
    NumeralCharIsNotSpace(t[0], JsWhitespace);
    assert DropLeading(t, JsWhitespace) == t;
    assert SplitSign(t) == (false, t);
    DigitPrefixOfNumeral(d, rest);
    DecimalValue(n);
    var m := "-" + d + rest;
    NumeralCharIsNotSpace(m[0], JsWhitespace);
    assert DropLeading(m, JsWhitespace) == m;
    assert m[1..] == t;
    assert SplitSign(m) == (true, t);
  }

  /** `parseFloat(s)` for plain decimals: leading whitespace, an optional sign,
      digits with an optional fractional part; `None` (NaN) when there is no digit. */
  function ParseFloat(s: string): (r: Option<real>)
    ensures var u := SplitSign(DropLeading(s, JsWhitespace)).1;
      r.None? <==> DigitPrefix(u) == [] && !(u != [] && u[0] == '.' && DigitPrefix(u[1..]) != [])
  {
    var (neg, u) := SplitSign(DropLeading(s, JsWhitespace));
    var ip := DigitPrefix(u);
    var rest := u[|ip|..];
    var fp := if rest != [] && rest[0] == '.' then DigitPrefix(rest[1..]) else [];
    if ip == [] && fp == [] then None
    else
      var v := DigitsValue(ip) as real + DigitsValue(fp) as real / Pow10(|fp|) as real;
      Some(if neg then -v else v)
  }

  /** `parseFloat` agrees with `parseInt` on a plain numeral. */
  lemma ParseFloatOfNumeral(n: nat)
    ensures ParseFloat(NatToDecimal(n)) == Some(n as real)
  {
    var d := NatToDecimal(n);
    NumeralCharIsNotSpace(d[0], JsWhitespace);
    assert DropLeading(d, JsWhitespace) == d;
    assert SplitSign(d) == (false, d);
    assert d + [] == d;
    DigitPrefixOfNumeral(d, []);
    assert d[|d|..] == [];
    DecimalValue(n);
  }

  /** `parseFloat(weight) || 0`. */
  function WeightOf(text: string): (w: real)
    ensures ParseFloat(text).None? ==> w == 0.0
    ensures ParseFloat(text).Some? ==> w == ParseFloat(text).value
  {
    match ParseFloat(text)
    case Some(v) => if v == 0.0 then 0.0 else v
    case None => 0.0
  }

  /** The save guard: a blank age is refused first, then a missing gender. */
  function Validate(form: ProfileForm): (r: Option<SaveError>)
    ensures r == Some(AgeRequired) <==> JsTrim(form.age) == ""
    ensures r == Some(GenderRequired) <==> JsTrim(form.age) != "" && form.gender == ""
    ensures r.None? <==> JsTrim(form.age) != "" && form.gender != ""
  {
    if JsTrim(form.age) == "" then Some(AgeRequired)
    else if form.gender == "" then Some(GenderRequired)
    else None
  }

  /** The record built from a form that passed the guard. */
  function Normalise(form: ProfileForm): (p: Profile)
    ensures p.gender == form.gender && p.allergies == JsTrim(form.allergies)
    ensures p.pregnant <==> form.pregnant == "true"
    ensures p.age == ParseInt(JsTrim(form.age)) && p.weight == WeightOf(JsTrim(form.weight))
  {
    Profile(ParseInt(JsTrim(form.age)), form.gender, WeightOf(JsTrim(form.weight)),
            form.pregnant == "true", JsTrim(form.allergies))
  }

  /** The least magnitude that rounds to an infinite IEEE 754 double, 2^1024 - 2^970:
      it lies halfway between the largest finite double and 2^1024, and rounding
      to nearest, ties to even, takes it up. `parseInt` and `parseFloat` give
      `Infinity` or `-Infinity` for a numeral of at least this magnitude. */
  const DOUBLE_OVERFLOW: real := 179769313486231580793728971405303415079934132710037826936173778980444968292764750946649017977587207096330286416692887910946555547851940402630657488671505820681908902000708383676273854845817711531764475730270069855571366959622842914819860834936475292719074168444365510704342711559699508093042880177904174497792.0

  /** Whether a number read from the form is infinite in the page. */
  predicate IsInfinite(x: real) {
    x <= -DOUBLE_OVERFLOW || DOUBLE_OVERFLOW <= x
  }

  /** The JSON form of a number: `JSON.stringify` writes an infinite one as `null`. */
  function NumJs(x: real): JsValue {
    if IsInfinite(x) then JNull else JNum(x)
  }

  /** The JSON form of a saved age: `JSON.stringify` writes NaN and infinities as `null`. */
  function AgeJs(age: Option<int>): JsValue {
    match age case Some(n) => NumJs(n as real) case None => JNull
  }

  /** The value `JSON.parse(JSON.stringify(p))` gives back: one field per member of
      the record, under the record's own names; an unreadable or infinite age and
      an infinite weight come back as `null`. */
  function ToJs(p: Profile): (v: JsValue)
    ensures v.JObj? && v.fields.Keys == {"age", "gender", "weight", "pregnant", "allergies"}
    ensures p.age.None? ==> Prop(v, "age") == JNull
    ensures p.age.Some? && IsInfinite(p.age.value as real) ==> Prop(v, "age") == JNull
    ensures p.age.Some? && !IsInfinite(p.age.value as real) ==> Prop(v, "age") == JNum(p.age.value as real)
    ensures IsInfinite(p.weight) ==> Prop(v, "weight") == JNull
    ensures !IsInfinite(p.weight) ==> Prop(v, "weight") == JNum(p.weight)
    ensures Prop(v, "gender") == JStr(p.gender) && Prop(v, "pregnant") == JBool(p.pregnant)
    ensures Prop(v, "allergies") == JStr(p.allergies)
  {
    JObj(map["age" := AgeJs(p.age), "gender" := JStr(p.gender), "weight" := NumJs(p.weight),
             "pregnant" := JBool(p.pregnant), "allergies" := JStr(p.allergies)])
  }

  /** `getProfile()`: the parsed record, or `null` when the key is missing or its
      text is not JSON; it never throws. */
  function GetProfile(st: Storage): (v: JsValue)
    ensures PROFILE_KEY !in st ==> v == JNull
    ensures PROFILE_KEY in st && st[PROFILE_KEY].NotJson? ==> v == JNull
    ensures PROFILE_KEY in st && st[PROFILE_KEY].Json? ==> v == st[PROFILE_KEY].value
  {
    if PROFILE_KEY !in st then JNull
    else match st[PROFILE_KEY]
      case Json(v) => v
      case NotJson(_) => JNull
  }

  /** Reading the profile right after a successful save gives the saved values. */
  lemma SaveThenLoad(st: Storage, form: ProfileForm)
    requires Validate(form).None?
    ensures var p := GetProfile(st[PROFILE_KEY := Json(ToJs(Normalise(form)))]);
      && Prop(p, "age") == AgeJs(ParseInt(JsTrim(form.age)))
      && Prop(p, "gender") == JStr(form.gender) && form.gender != ""
      && Prop(p, "weight") == NumJs(WeightOf(JsTrim(form.weight)))
      && Prop(p, "pregnant") == JBool(form.pregnant == "true")
      && Prop(p, "allergies") == JStr(JsTrim(form.allergies))
  {
    var v := ToJs(Normalise(form));
    assert GetProfile(st[PROFILE_KEY := Json(v)]) == v;
  }

  /** The browser's `localStorage`. */
  class LocalStorage {
    var items: Storage

    constructor (items: Storage)
      ensures this.items == items
    {
      this.items := items;
    }

    /** `saveProfileToStorage()`: on a form that passes the guard, one write of the
        whole normalised record; otherwise no write and the reason. */
    method SaveProfile(form: ProfileForm) returns (err: Option<SaveError>)
      modifies this
      ensures err == Validate(form)
      ensures err.Some? ==> items == old(items)
      ensures err.None? ==> items == old(items)[PROFILE_KEY := Json(ToJs(Normalise(form)))]
    {
      var age := JsTrim(form.age);
      var weight := JsTrim(form.weight);
      var allergies := JsTrim(form.allergies);
      if age == "" {
        return Some(AgeRequired);
      }
      if form.gender == "" {
        return Some(GenderRequired);
      }
      var profile := Profile(ParseInt(age), form.gender, WeightOf(weight), form.pregnant == "true", allergies);
      assert profile == Normalise(form);
      items := items[PROFILE_KEY := Json(ToJs(profile))];
      err := None;
    }
  }
}
