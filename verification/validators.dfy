/**
  The string predicates of the `Validators` utility, the 422 short-circuit
  every handler starts with, and the two validation-library rules the
  handlers' chains use (`isLength({ min })` and `isNumeric()`).
 */
module Validators {
  import opened Wrappers
  import opened Strings
  import opened Js
  import opened Http

  /** `!str || 0 === str.length`. */
  function IsEmpty(v: JsValue): (r: bool)
    ensures v.Str? ==> (r <==> v.s == "")
    ensures !v.Str? ==> (r <==> !Truthy(v))
  {
    !Truthy(v) || (v.Str? && Utf16Length(v.s) == 0)
  }

  /** `/^\s*$/` matched against a string. */
  function WhitespaceOnly(s: string): (r: bool)
    ensures r <==> forall k :: 0 <= k < |s| ==> IsWhitespace(s[k])
  {
    s == [] || (IsWhitespace(s[0]) && WhitespaceOnly(s[1..]))
  }

  /** `!str || /^\s*$/.test(str)`; the test converts its argument with `String`. */
  function IsBlank(v: JsValue): (r: bool)
    ensures v.Str? ==> (r <==> forall k :: 0 <= k < |v.s| ==> IsWhitespace(v.s[k]))
    ensures !v.Str? ==> (r <==> !Truthy(v))
  {
    if !Truthy(v) then true
    else if v.Str? then WhitespaceOnly(v.s)
    else
      NotWhitespaceOnly(v);
      WhitespaceOnly(ToJsString(v))
  }

  /** The text of a truthy non-string value always holds a letter or a digit. */
  lemma NotWhitespaceOnly(v: JsValue)
    requires Truthy(v) && !v.Str?
    ensures !WhitespaceOnly(ToJsString(v))
  {
    if v.Num? {
      var d := NatToString(if v.n < 0 then -v.n else v.n);
      var t := ToJsString(v);
      assert t[|t| - 1] == d[|d| - 1];
      assert !IsWhitespace(t[|t| - 1]);
    } else {
      assert ToJsString(v)[0] == 't';
    }
  }

  /** Every empty value is blank; a non-empty run of whitespace is blank without being empty. */
  lemma EmptyIsBlank(v: JsValue)
    ensures IsEmpty(v) ==> IsBlank(v)
    ensures v.Str? && v.s != "" && WhitespaceOnly(v.s) ==> IsBlank(v) && !IsEmpty(v)
  {
  }

  /** `\w`: ASCII letters, digits and underscore. */
  predicate IsWordChar(c: char) {
    ('a' <= c <= 'z') || ('A' <= c <= 'Z') || ('0' <= c <= '9') || c == '_'
  }

  /** `/^[\w]{4,10}$/`: four to ten code units, each matching `\w`. */
  function IsValidUsername(s: string): (r: bool)
    ensures r <==> 4 <= |s| <= 10 && forall k :: 0 <= k < |s| ==> IsWordChar(s[k])
  {
    var allWord := forall k :: 0 <= k < |s| ==> IsWordChar(s[k]);
    if allWord then
      Utf16OfWordChars(s);
      4 <= Utf16Length(s) <= 10
    else
      false
  }

  /** Word characters are single code units, so length in code units is length in characters. */
  lemma {:induction false} Utf16OfWordChars(s: string)
    requires forall k :: 0 <= k < |s| ==> IsWordChar(s[k])
    ensures Utf16Length(s) == |s|
  {
    if s != [] {
      Utf16OfWordChars(s[1..]);
    }
  }

  /** `/^([\w\W]{6,50})$/`: any six to fifty UTF-16 code units. */
  function IsValidPassword(s: string): (r: bool)
    ensures r ==> 3 <= |s| <= 50
    ensures 6 <= |s| && 2 * |s| <= 50 ==> r
  {
    6 <= Utf16Length(s) <= 50
  }

  predicate IsLetter(c: char) {
    ('a' <= c <= 'z') || ('A' <= c <= 'Z')
  }

  predicate IsAlnum(c: char) {
    IsLetter(c) || ('0' <= c <= '9')
  }

  /** Letters, digits and `-` only. */
  predicate LabelChars(l: string) {
    forall k :: 0 <= k < |l| ==> IsAlnum(l[k]) || l[k] == '-'
  }

  /** `[a-zA-Z0-9]|[a-zA-Z0-9][a-zA-Z0-9\-]*[a-zA-Z0-9]`: a label before a dot. */
  predicate InnerLabel(l: string) {
    |l| > 0 && IsAlnum(l[0]) && IsAlnum(l[|l| - 1]) && LabelChars(l)
  }

  /** `[A-Za-z]|[A-Za-z][A-Za-z0-9\-]*[A-Za-z0-9]`: the final label, which starts with a letter. */
  predicate FinalLabel(l: string) {
    |l| > 0 && IsLetter(l[0]) && IsAlnum(l[|l| - 1]) && LabelChars(l)
  }

  /** A non-empty list of labels, all inner labels but the last, which is a final label. */
  predicate HostLabels(labels: seq<string>) {
    && |labels| > 0
    && (forall k :: 0 <= k < |labels| - 1 ==> InnerLabel(labels[k]))
    && FinalLabel(labels[|labels| - 1])
  }

  /**
    The hostname pattern. Since no label can hold a dot, the pattern's
    repetition of `label.` followed by a final label matches exactly when
    the dot-separated pieces are such labels.
   */
  predicate IsValidHostname(s: string) {
    HostLabels(Split(s, '.'))
  }

  /** A hostname is valid exactly when it is some list of valid labels joined with dots. */
  lemma HostnameIsJoinedLabels(s: string)
    ensures IsValidHostname(s) <==> exists labels :: HostLabels(labels) && Join(labels, ".") == s
  {
    if IsValidHostname(s) {
      JoinOfSplit(s, '.');
      assert [('.')] == ".";
    }
    if labels :| HostLabels(labels) && Join(labels, ".") == s {
      assert forall k :: 0 <= k < |labels| ==> '.' !in labels[k] by {
        forall k | 0 <= k < |labels|
          ensures '.' !in labels[k]
        {
          assert LabelChars(labels[k]);
        }
      }
      assert [('.')] == ".";
      SplitOfJoin(labels, '.');
    }
  }

  /** `haltOnValidationErrors`: a 422 `{ errors }` response exactly when there are errors. */
  function HaltOnValidationErrors(errors: seq<ValidationError>): (r: Option<Response>)
    ensures r.Some? <==> |errors| > 0
    ensures r.Some? ==> r.value.status == 422 && r.value.body == Errors(errors)
  {
    if |errors| > 0 then Some(Response(422, Errors(errors))) else None
  }

  /** How every handler answers a failed validation: no mapper call, and the 422 with the errors. */
  function Halt(errors: seq<ValidationError>): (h: Handled)
    requires |errors| > 0
    ensures h.calls == [] && h.reply == Send(Response(422, Errors(errors)))
  {
    Handled([], Send(HaltOnValidationErrors(errors).value))
  }

  // Rules of the validation library used by the handlers' chains.

  /** The library's `toString`: null and undefined become the empty string. */
  function RuleText(v: JsValue): (t: string)
    ensures v.Str? ==> t == v.s
  {
    if v.Undefined? || v.Null? then "" else ToJsString(v)
  }

  /** `isLength({ min })`: at least `min` characters (surrogate pairs count once). */
  predicate MinLength(v: JsValue, min: nat) {
    |RuleText(v)| >= min
  }

  /** A failing rule contributes its error; a passing one contributes nothing. */
  function Rule(ok: bool, param: string, msg: string): (r: seq<ValidationError>)
    ensures |r| <= 1 && (r == [] <==> ok)
    ensures forall e :: e in r ==> e.param == param && e.msg == msg
  {
    if ok then [] else [ValidationError(param, msg)]
  }

  /** Whether some error names `param`. */
  predicate Names(errors: seq<ValidationError>, param: string) {
    exists k :: 0 <= k < |errors| && errors[k].param == param
  }

  /** Some error names `param` in a concatenation exactly when one of its halves does. */
  lemma NamesConcat(a: seq<ValidationError>, b: seq<ValidationError>, param: string)
    ensures Names(a + b, param) <==> Names(a, param) || Names(b, param)
  {
    if Names(b, param) {
      var k :| 0 <= k < |b| && b[k].param == param;
      assert (a + b)[|a| + k] == b[k];
    }
    if Names(a, param) {
      var k :| 0 <= k < |a| && a[k].param == param;
      assert (a + b)[k] == a[k];
    }
  }

  /** A rule names its own field exactly when it fails, and never another field. */
  lemma RuleNames(ok: bool, param: string, msg: string, other: string)
    ensures Names(Rule(ok, param, msg), param) <==> !ok
    ensures other != param ==> !Names(Rule(ok, param, msg), other)
  {
    if !ok {
      assert Rule(ok, param, msg)[0].param == param;
    }
  }

  /** Three rules on distinct fields, in order: no error exactly when all pass, and each field is named exactly when its rule fails. */
  lemma ThreeRules(ok1: bool, p1: string, m1: string, ok2: bool, p2: string, m2: string, ok3: bool, p3: string, m3: string)
    requires p1 != p2 && p1 != p3 && p2 != p3
    ensures var e := Rule(ok1, p1, m1) + Rule(ok2, p2, m2) + Rule(ok3, p3, m3);
            && (e == [] <==> ok1 && ok2 && ok3)
            && (Names(e, p1) <==> !ok1) && (Names(e, p2) <==> !ok2) && (Names(e, p3) <==> !ok3)
            && |e| <= 3
  {
    var r1, r2, r3 := Rule(ok1, p1, m1), Rule(ok2, p2, m2), Rule(ok3, p3, m3);
    RuleNames(ok1, p1, m1, p2);
    RuleNames(ok1, p1, m1, p3);
    RuleNames(ok2, p2, m2, p1);
    RuleNames(ok2, p2, m2, p3);
    RuleNames(ok3, p3, m3, p1);
    RuleNames(ok3, p3, m3, p2);
    NamesConcat(r1, r2, p1);
    NamesConcat(r1, r2, p2);
    NamesConcat(r1, r2, p3);
    NamesConcat(r1 + r2, r3, p1);
    NamesConcat(r1 + r2, r3, p2);
    NamesConcat(r1 + r2, r3, p3);
  }

  /** `isNumeric()`: `^[+-]?([0-9]*[.])?[0-9]+$`. */
  predicate IsNumeric(s: string) {
    NumericBody(if |s| > 0 && (s[0] == '+' || s[0] == '-') then s[1..] else s)
  }

  /** `([0-9]*[.])?[0-9]+`: digits, or digits, a dot and at least one digit. */
  predicate NumericBody(t: string) {
    if '.' in t then
      var i := IndexOf(t, '.');
      AllDigits(t[..i]) && |t| > i + 1 && AllDigits(t[i + 1..])
    else
      |t| > 0 && AllDigits(t)
  }

  /** Every integer, written as JavaScript writes it, passes `isNumeric()`. */
  lemma IntegersAreNumeric(i: int)
    ensures IsNumeric(IntToString(i))
  {
    var s := IntToString(i);
    var d := NatToString(if i < 0 then -i else i);
    if i < 0 {
      assert s[1..] == d;
    }
    DigitsHaveNoDot(d);
    CountAbsent(d, '.');
  }

  /** A numeric string holds a digit, and nothing but digits, a leading sign and dots. */
  lemma NumericShape(s: string)
    requires IsNumeric(s)
    ensures exists k :: 0 <= k < |s| && IsDigit(s[k])
    ensures forall k :: 0 <= k < |s| ==> IsDigit(s[k]) || s[k] == '.' || (k == 0 && (s[k] == '+' || s[k] == '-'))
  {
    var off := if |s| > 0 && (s[0] == '+' || s[0] == '-') then 1 else 0;
    var t := s[off..];
    var d := NumericBodyShape(t);
    assert IsDigit(s[off + d]) by { assert t[d] == s[off + d]; }
    forall k | off <= k < |s|
      ensures IsDigit(s[k]) || s[k] == '.'
    {
      assert s[k] == t[k - off];
    }
  }

  /** The part after the sign is digits and dots, with a digit at `d`. */
  lemma NumericBodyShape(t: string) returns (d: nat)
    requires NumericBody(t)
    ensures d < |t| && IsDigit(t[d])
    ensures forall k :: 0 <= k < |t| ==> IsDigit(t[k]) || t[k] == '.'
  {
    if '.' in t {
      var i := IndexOf(t, '.');
      d := i + 1;
      assert t[i + 1..][0] == t[d];
      forall k | 0 <= k < |t|
        ensures IsDigit(t[k]) || t[k] == '.'
      {
        if k < i {
          assert t[..i][k] == t[k];
        } else if k > i {
          assert t[i + 1..][k - i - 1] == t[k];
        }
      }
    } else {
      d := 0;
    }
  }

  lemma {:induction false} DigitsHaveNoDot(s: string)
    requires AllDigits(s)
    ensures Count(s, '.') == 0
  {
    if s != [] {
      DigitsHaveNoDot(s[1..]);
    }
  }
}
