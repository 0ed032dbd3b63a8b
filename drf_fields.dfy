/**
 * The Django REST framework serializer fields the report, AI and notification
 * payloads use, each as a function from the decoded JSON value to the validated
 * value, or `None` where the field reports a validation error.
 */
module DrfFields {
  import opened Wrappers
  import opened Text
  import opened Json

  /** `BooleanField.TRUE_VALUES` and `FALSE_VALUES`, the text members. */
  const TrueTexts: set<string> :=
    {"t", "T", "y", "Y", "yes", "Yes", "YES", "true", "True", "TRUE", "on", "On", "ON", "1"}
  const FalseTexts: set<string> :=
    {"f", "F", "n", "N", "no", "No", "NO", "false", "False", "FALSE", "off", "Off", "OFF", "0"}

  /**
   * `BooleanField` without `allow_null`: booleans, the listed texts and the numbers
   * 1 and 0 (a float equal to them counts too); null and anything else is an error.
   */
  function BooleanField(j: Json): (r: Option<bool>)
    ensures j.JBool? ==> r == Some(j.b)
    ensures j.JStr? ==> (r == Some(true) <==> j.s in TrueTexts) && (r == Some(false) <==> j.s in FalseTexts)
    ensures j.JInt? ==> (r.Some? <==> j.i == 0 || j.i == 1) && (r.Some? ==> (r.value <==> j.i == 1))
    ensures (j.JNull? || j.JArr? || j.JObj?) ==> r == None
  {
    match j
    case JBool(b) => Some(b)
    case JInt(i) => if i == 1 then Some(true) else if i == 0 then Some(false) else None
    case JFloat(x, _) => if x == 1.0 then Some(true) else if x == 0.0 then Some(false) else None
    case JStr(s) => if s in TrueTexts then Some(true) else if s in FalseTexts then Some(false) else None
    case _ => None
  }

  /**
   * Python's `str()` of a scalar JSON value. For lists and dictionaries it is `None`:
   * their `str()` (the Python repr, such as `['a']`) is not modelled.
   */
  function PyStr(j: Json): (r: Option<string>)
    ensures j.JStr? ==> r == Some(j.s)
    ensures j.JInt? ==> r == Some(IntToString(j.i))
    ensures r.None? <==> j.JArr? || j.JObj?
  {
    match j
    case JNull => Some("None")
    case JBool(b) => Some(if b then "True" else "False")
    case JInt(i) => Some(IntToString(i))
    case JFloat(_, text) => Some(text)
    case JStr(s) => Some(s)
    case _ => None
  }

  /** Number of '0' characters at the start of `u`. */
  function LeadingZeros(u: string): (n: nat)
    ensures n <= |u|
    ensures forall i :: 0 <= i < n ==> u[i] == '0'
    ensures n == |u| || u[n] != '0'
  {
    if u != [] && u[0] == '0' then 1 + LeadingZeros(u[1..]) else 0
  }

  /** `u` matches `0*\s*$`. */
  predicate ZerosThenSpaces(u: string) {
    AllSpaces(u[LeadingZeros(u)..])
  }

  /** `s` without its trailing '0' characters. */
  function DropZeros(s: string): (r: string)
    ensures |r| <= |s| && r == s[..|r|]
    ensures forall i :: |r| <= i < |s| ==> s[i] == '0'
    ensures r == [] || r[|r| - 1] != '0'
  {
    if s != [] && s[|s| - 1] == '0' then DropZeros(s[..|s| - 1]) else s
  }

  /**
   * `IntegerField.re_decimal.sub('', s)`, the pattern `\.0*\s*$`: a decimal point
   * followed only by zeros and then white space is cut off together with them.
   */
  function CutDecimalZeros(s: string): (r: string)
    ensures |r| <= |s|
  {
    var z := DropZeros(StripEnd(s));
    if z != [] && z[|z| - 1] == '.' then s[..|z| - 1] else s
  }

  lemma LeadingZerosExact(u: string, m: nat)
    requires m <= |u| && (forall i :: 0 <= i < m ==> u[i] == '0') && (m == |u| || u[m] != '0')
    ensures LeadingZeros(u) == m
  {
  }

  /** Only a decimal point followed by zeros and white space is ever cut. */
  lemma CutDecimalZerosSound(s: string)
    ensures CutDecimalZeros(s) == s[..|CutDecimalZeros(s)|]
    ensures CutDecimalZeros(s) != s ==>
      s[|CutDecimalZeros(s)|] == '.' && ZerosThenSpaces(s[|CutDecimalZeros(s)| + 1..])
  {
    var t := StripEnd(s);
    var z := DropZeros(t);
    if z != [] && z[|z| - 1] == '.' {
      CutTail(s, t, z);
    }
  }

  /** The cut case: `z` is `s` stripped of trailing blanks, then of trailing zeros, and ends in the point. */
  lemma CutTail(s: string, t: string, z: string)
    requires |t| <= |s| && t == s[..|t|] && AllSpaces(s[|t|..])
    requires |z| <= |t| && z == t[..|z|] && forall i :: |z| <= i < |t| ==> t[i] == '0'
    requires z != [] && z[|z| - 1] == '.'
    ensures s[|z| - 1] == '.' && ZerosThenSpaces(s[|z|..])
  {
    var k := |z| - 1;
    var u := s[k + 1..];
    var m := |t| - k - 1;
    assert s[k] == t[k] == z[k];
    assert forall i :: 0 <= i < m ==> u[i] == t[k + 1 + i];
    assert m < |u| ==> u[m] == s[|t|] && IsSpace(s[|t|]);
    LeadingZerosExact(u, m);
    assert u[m..] == s[|t|..];
  }

  lemma StripEndUnspaced(s: string)
    requires s != [] && !IsSpace(s[|s| - 1])
    ensures StripEnd(s) == s
  {
  }

  lemma {:induction false} DropZerosAppend(p: string, n: nat)
    requires p != [] && p[|p| - 1] != '0'
    ensures DropZeros(p + seq(n, _ => '0')) == p
  {
    if n > 0 {
      var w := p + seq(n, _ => '0');
      assert w[..|w| - 1] == p + seq(n - 1, _ => '0');
      DropZerosAppend(p, n - 1);
    } else {
      assert p + seq(0, _ => '0') == p;
    }
  }

  /** Stripping ends at the last character that is not white space. */
  lemma StripEndAt(s: string, e: nat)
    requires 0 < e <= |s| && !IsSpace(s[e - 1]) && AllSpaces(s[e..])
    ensures StripEnd(s) == s[..e]
  {
    var p, q := s[..e], s[e..];
    assert p + q == s;
    StripEndSpaces(p, q);
    StripEndUnspaced(p);
  }

  lemma PointOrZeroNotSpace(c: char)
    requires c == '.' || c == '0'
    ensures !IsSpace(c)
  {
  }

  /** The last of a decimal point and the zeros after it is the point or a zero. */
  lemma LastOfDecimalTail(s: string, k: nat)
    requires k < |s| && s[k] == '.'
    ensures var n := LeadingZeros(s[k + 1..]);
      k + 1 + n <= |s| && (s[k + n] == '.' || s[k + n] == '0')
  {
    var u := s[k + 1..];
    var n := LeadingZeros(u);
    if n > 0 {
      assert s[k + n] == u[n - 1];
    }
  }

  lemma StripEndBeforeSpaces(s: string, k: nat)
    requires k < |s| && s[k] == '.' && ZerosThenSpaces(s[k + 1..])
    ensures StripEnd(s) == s[..k + 1 + LeadingZeros(s[k + 1..])]
  {
    var u := s[k + 1..];
    var n := LeadingZeros(u);
    var e := k + 1 + n;
    assert AllSpaces(s[e..]) by {
      assert s[e..] == u[n..];
    }
    LastOfDecimalTail(s, k);
    PointOrZeroNotSpace(s[e - 1]);
    StripEndAt(s, e);
  }

  /** The zeros after position `k` are a run of `'0'` characters. */
  lemma ZeroRun(s: string, k: nat)
    requires k < |s|
    ensures var n := LeadingZeros(s[k + 1..]);
      k + 1 + n <= |s| && s[..k + 1 + n] == s[..k + 1] + seq(n, _ => '0')
  {
    var u := s[k + 1..];
    var n := LeadingZeros(u);
    assert forall i :: k + 1 <= i < k + 1 + n ==> s[i] == u[i - k - 1];
  }

  /** The cut is exactly the regular-expression substitution: any matching decimal tail is removed. */
  lemma CutDecimalZerosComplete(s: string, k: nat)
    requires k < |s| && s[k] == '.' && ZerosThenSpaces(s[k + 1..])
    ensures CutDecimalZeros(s) == s[..k]
  {
    var n := LeadingZeros(s[k + 1..]);
    StripEndBeforeSpaces(s, k);
    ZeroRun(s, k);
    DropZerosAppend(s[..k + 1], n);
    var z := DropZeros(StripEnd(s));
    assert z == s[..k + 1];
    assert z[|z| - 1] == '.';
  }

  /** `IntegerField.MAX_STRING_LENGTH`. */
  const MaxIntegerText: nat := 1000

  /**
   * `IntegerField` without `allow_null`: `int()` of the value's text after the
   * decimal cut; texts longer than 1000 characters, booleans, lists, dictionaries
   * and null are errors.
   */
  function IntegerField(j: Json): (r: Option<int>)
    ensures j.JStr? && |j.s| > MaxIntegerText ==> r == None
    ensures (j.JNull? || j.JBool? || j.JArr? || j.JObj?) ==> r == None
    ensures j.JStr? && |j.s| <= MaxIntegerText ==> r == ParseInt(CutDecimalZeros(j.s))
  {
    match j
    case JInt(i) => Some(i)
    case JFloat(_, text) => ParseInt(CutDecimalZeros(text))
    case JStr(s) => if |s| > MaxIntegerText then None else ParseInt(CutDecimalZeros(s))
    case _ => None
  }

  /** An integer sent as JSON text (of at most 1000 characters) is read back as that integer. */
  lemma IntegerFieldText(i: int)
    requires |IntToString(i)| <= MaxIntegerText
    ensures IntegerField(JStr(IntToString(i))) == Some(i)
  {
    var s := IntToString(i);
    assert '.' !in s by {
      if i < 0 {
        assert s == "-" + NatToString(-i);
        assert forall c :: c in s ==> c == '-' || IsDigit(c);
      }
    }
    CutDecimalZerosSound(s);
    assert CutDecimalZeros(s) == s;
    ParseIntRoundTrip(i);
  }

  /** `FloatField.MAX_STRING_LENGTH`. */
  const MaxFloatText: nat := 1000

  /**
   * `FloatField` without `allow_null`: `float()` of the value. Numbers keep their
   * value and booleans give 1.0 and 0.0; a text longer than 1000 characters is an
   * error, any other text is read by `floatOf`, Python's `float()` on text (`None`
   * where it raises); null, lists and dictionaries are errors.
   */
  function FloatField(j: Json, floatOf: string -> Option<real>): (r: Option<real>)
    ensures (j.JNull? || j.JArr? || j.JObj?) ==> r == None
    ensures j.JStr? && |j.s| > MaxFloatText ==> r == None
    ensures j.JInt? || j.JFloat? || j.JBool? ==> r.Some?
  {
    match j
    case JInt(i) => Some(i as real)
    case JFloat(x, _) => Some(x)
    case JBool(b) => Some(if b then 1.0 else 0.0)
    case JStr(s) => if |s| > MaxFloatText then None else floatOf(s)
    case _ => None
  }

  lemma WordsNotBlank()
    ensures !AllSpaces("None") && !AllSpaces("True") && !AllSpaces("False")
  {
    assert !IsSpace("None"[0]) && !IsSpace("True"[0]) && !IsSpace("False"[0]);
  }

  /** `str(data).strip() == ''`, the test `CharField` applies before anything else. */
  predicate Blank(j: Json) {
    PyStr(j).Some? && AllSpaces(PyStr(j).value)
  }

  /**
   * `CharField` with `trim_whitespace`: blank values give `''` when `allowBlank`
   * and are errors otherwise; null gives `None` when `allowNull`; text and numbers
   * give their stripped text; booleans, lists and dictionaries are errors, and so is
   * text holding a NUL character. `Some(None)` stands for an accepted null.
   */
  function CharField(j: Json, allowBlank: bool, allowNull: bool): (r: Option<Option<string>>)
    ensures Blank(j) ==> r == (if allowBlank then Some(Some("")) else None)
    ensures j.JNull? ==> r == (if allowNull then Some(None) else None)
    ensures (j.JBool? || j.JArr? || j.JObj?) ==> r == None
    ensures r.Some? && r.value.Some? ==> '\0' !in r.value.value
    ensures r.Some? && r.value.Some? && r.value.value == "" ==> allowBlank && Blank(j)
    ensures j.JStr? && !Blank(j) && '\0' !in j.s ==> r == Some(Some(Strip(j.s)))
  {
    WordsNotBlank();
    if Blank(j) then (if allowBlank then Some(Some("")) else None)
    else
      match j
      case JNull => if allowNull then Some(None) else None
      case JStr(s) => if '\0' in s then None else Some(Some(Strip(s)))
      case JInt(i) => Some(Some(IntToString(i)))
      case JFloat(_, text) => if '\0' in text then None else Some(Some(Strip(text)))
      case _ => None
  }

  /** A required `CharField()`: neither blank nor null. */
  function RequiredText(j: Json): (r: Option<string>)
    ensures r.Some? ==> r.value != "" && !Blank(j) && !j.JNull?
  {
    var c := CharField(j, false, false);
    if c.Some? && c.value.Some? then Some(c.value.value) else None
  }

  /** `ChoiceField`: the value's `str()` must be one of the choices; null is an error. */
  function ChoiceField(j: Json, choices: set<string>): (r: Option<string>)
    ensures r.Some? <==> !j.JNull? && PyStr(j).Some? && PyStr(j).value in choices
    ensures r.Some? ==> r.value in choices
  {
    if j.JNull? then None
    else
      match PyStr(j)
      case Some(s) => if s in choices then Some(s) else None
      case None => None
  }

  /** `ListField(child=CharField())`: a JSON list whose every element is a required text. */
  function TextListField(j: Json): (r: Option<seq<string>>)
    ensures r.Some? <==> j.JArr? && forall i :: 0 <= i < |j.items| ==> RequiredText(j.items[i]).Some?
    ensures r.Some? ==> (|r.value| == |j.items| &&
      forall i :: 0 <= i < |r.value| ==> Some(r.value[i]) == RequiredText(j.items[i]))
  {
    match j
    case JArr(items) => TextList(items)
    case _ => None
  }

  function TextList(items: seq<Json>): (r: Option<seq<string>>)
    ensures r.Some? <==> forall i :: 0 <= i < |items| ==> RequiredText(items[i]).Some?
    ensures r.Some? ==> (|r.value| == |items| &&
      forall i :: 0 <= i < |r.value| ==> Some(r.value[i]) == RequiredText(items[i]))
  {
    if forall i :: 0 <= i < |items| ==> RequiredText(items[i]).Some? then
      Some(seq(|items|, i requires 0 <= i < |items| => RequiredText(items[i]).value))
    else None
  }

  /** `DictField()`: a JSON object, its values left as they are. */
  function DictField(j: Json): (r: Option<seq<(string, Json)>>)
    ensures r.Some? <==> j.JObj?
    ensures r.Some? ==> r.value == j.members
  {
    match j
    case JObj(members) => Some(members)
    case _ => None
  }
}
