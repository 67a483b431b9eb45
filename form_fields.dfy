/** The controlled-form idiom the modals share: a form is a map from input name to
    value, and a change event replaces the value of the input that fired it, converted
    with `Number(value)` when the input is a number input. A number input's raw value
    is "" or the text of a floating-point number. */
module FormFields {
  import opened Common
  import opened Text
  import opened Session

  /** The kind of an input element, from its `type` attribute. */
  datatype InputKind = TextInput | NumberInput

  /** A form value: a string, an integer, or a number with a fraction or an exponent,
      kept as its text. */
  datatype FieldValue = Str(s: string) | Int(n: int) | NotInteger(raw: string)

  predicate IsDigit(c: char)
  {
    '0' <= c <= '9'
  }

  predicate AllDigits(s: string)
  {
    forall i :: 0 <= i < |s| ==> IsDigit(s[i])
  }

  /** The value of a string of decimal digits. */
  function ParseDigits(s: string): (n: nat)
    requires AllDigits(s)
  {
    if s == [] then 0 else ParseDigits(s[..|s| - 1]) * 10 + (s[|s| - 1] as int - '0' as int)
  }

  /** Reading the decimal digits of a number gives the number back. */
  lemma {:induction false} ParseNatToString(n: nat)
    ensures AllDigits(NatToString(n))
    ensures ParseDigits(NatToString(n)) == n
  {
    var s := NatToString(n);
    if n >= 10 {
      ParseNatToString(n / 10);
      assert s[..|s| - 1] == NatToString(n / 10);
    }
    assert s[|s| - 1] as int - '0' as int == n % 10 by {
      assert DigitChar(n % 10) as int == '0' as int + n % 10;
    }
  }

  /** `Number(raw)` for the raw value of a number input: blank is 0, an optionally
      signed run of digits is that integer, anything else is not an integer. */
  function ToNumber(raw: string): (v: FieldValue)
    ensures v.Int? || v.NotInteger?
    ensures IsBlank(raw) ==> v == Int(0)
  {
    var t := Trim(raw);
    if t == [] then Int(0)
    else if AllDigits(t) then Int(ParseDigits(t))
    else if t[0] == '-' && |t| > 1 && AllDigits(t[1..]) then Int(-(ParseDigits(t[1..]) as int))
    else if t[0] == '+' && |t| > 1 && AllDigits(t[1..]) then Int(ParseDigits(t[1..]))
    else NotInteger(raw)
  }

  /** Whatever integer the input shows, the form gets it back as that integer. */
  lemma {:induction false} NumberOfIntText(n: int)
    ensures ToNumber(IntToString(n)) == Int(n)
  {
    var s := IntToString(n);
    if n < 0 {
      var m: nat := -n;
      var d := NatToString(m);
      assert s == "-" + d;
      NumberOfNegativeText(m);
      assert ToNumber(s) == Int(n);
    } else {
      var d := NatToString(n);
      assert s == d;
      NumberOfNatText(n);
    }
  }

  /** The text of a natural number converts back to it. */
  lemma {:induction false} NumberOfNatText(m: nat)
    ensures ToNumber(NatToString(m)) == Int(m)
  {
    ParseNatToString(m);
    NumberOfDigits(NatToString(m));
  }

  /** A minus sign before the text of a natural number converts to its negation. */
  lemma {:induction false} NumberOfNegativeText(m: nat)
    ensures ToNumber("-" + NatToString(m)) == Int(-(m as int))
  {
    ParseNatToString(m);
    NumberOfNegativeDigits(NatToString(m));
  }

  /** A run of digits converts to its value. */
  lemma NumberOfDigits(d: string)
    requires d != [] && AllDigits(d)
    ensures ToNumber(d) == Int(ParseDigits(d))
  {
    assert !IsJsSpace(d[0]) && !IsJsSpace(d[|d| - 1]) by {
      assert IsDigit(d[0]) && IsDigit(d[|d| - 1]);
    }
    TrimOfTrimmed(d);
  }

  /** A minus sign and a run of digits convert to the negated value. */
  lemma NumberOfNegativeDigits(d: string)
    requires d != [] && AllDigits(d)
    ensures ToNumber("-" + d) == Int(-(ParseDigits(d) as int))
  {
    var s := "-" + d;
    assert s[1..] == d;
    assert s[|s| - 1] == d[|d| - 1];
    assert !IsJsSpace(s[|s| - 1]) by { assert IsDigit(d[|d| - 1]); }
    TrimOfTrimmed(s);
    assert !AllDigits(s) by { assert !IsDigit(s[0]); }
  }

  /** A string that starts and ends with a non-space is its own trim. */
  lemma TrimOfTrimmed(s: string)
    requires s != [] && !IsJsSpace(s[0]) && !IsJsSpace(s[|s| - 1])
    ensures Trim(s) == s
  {
    assert TrimStart(s) == s;
    assert TrimEnd(s) == s;
  }

  /** The value a change event stores: the raw text, or `Number(raw)`. */
  function Converted(kind: InputKind, raw: string): (v: FieldValue)
    ensures kind == TextInput ==> v == Str(raw)
    ensures kind == NumberInput ==> v == ToNumber(raw)
  {
    if kind == NumberInput then ToNumber(raw) else Str(raw)
  }

  /** A form fits its inputs: one value per input, a string for a text input and a
      number for a number input. */
  ghost predicate Fits(form: map<string, FieldValue>, inputs: map<string, InputKind>)
  {
    && form.Keys == inputs.Keys
    && forall k :: k in form ==> (form[k].Str? <==> inputs[k] == TextInput)
  }

  /** `handleChange`: `setForm(prev => ({ ...prev, [name]: converted }))`. Only the
      named field changes, and the form still fits its inputs. */
  function Changed(form: map<string, FieldValue>, inputs: map<string, InputKind>, name: string, raw: string)
    : (r: map<string, FieldValue>)
    requires name in inputs
    ensures r.Keys == form.Keys + {name}
    ensures r[name] == Converted(inputs[name], raw)
    ensures forall k :: k in form && k != name ==> r[k] == form[k]
    ensures Fits(form, inputs) ==> Fits(r, inputs)
  {
    form[name := Converted(inputs[name], raw)]
  }

  /** What a modal's submit does, in order, besides its own fields. */
  datatype ModalEffect =
    | Posted(body: map<string, FieldValue>)
    | CalledOnSuccess
    | CalledOnClose

  /** `{ ...form, auth_id: user.id }` */
  function WithAuthId(form: map<string, FieldValue>, authId: string): (body: map<string, FieldValue>)
    ensures body.Keys == form.Keys + {"auth_id"}
    ensures body["auth_id"] == Str(authId)
    ensures forall k :: k in form && k != "auth_id" ==> body[k] == form[k]
  {
    form["auth_id" := Str(authId)]
  }

  /** The effects of a post that the backend accepted: the post, `onSuccess?.()` when
      the prop is given, then `onClose()`. */
  function AcceptedEffects(body: map<string, FieldValue>, hasOnSuccess: bool): (effects: seq<ModalEffect>)
    ensures |effects| == if hasOnSuccess then 3 else 2
    ensures effects[0] == Posted(body) && effects[|effects| - 1] == CalledOnClose
    ensures CalledOnSuccess in effects <==> hasOnSuccess
  {
    [Posted(body)] + (if hasOnSuccess then [CalledOnSuccess] else []) + [CalledOnClose]
  }

  /** A modal's own state: its form, the `loading` flag and the `error` text. */
  datatype ModalState = ModalState(form: map<string, FieldValue>, loading: bool, error: string)

  /** The `try` part of a modal's submit, once the POST has settled: a missing user
      makes `user.id` throw before anything is sent; an accepted post resets the form to
      its defaults and calls back; a rejected one keeps the form. Either way the error
      is `failMessage` on failure and "" otherwise, and loading is over. */
  function Post(st: ModalState, user: Option<User>, hasOnSuccess: bool, reply: ApiResult<()>,
                defaults: map<string, FieldValue>, failMessage: string)
    : (r: (ModalState, seq<ModalEffect>))
    ensures !r.0.loading
    ensures user.None? ==> r.1 == [] && r.0 == ModalState(st.form, false, failMessage)
    ensures user.Some? && reply.Ok? ==>
      r.0 == ModalState(defaults, false, "") && r.1 == AcceptedEffects(WithAuthId(st.form, user.value.id), hasOnSuccess)
    ensures user.Some? && reply.Failed? ==>
      r.0 == ModalState(st.form, false, failMessage) && r.1 == [Posted(WithAuthId(st.form, user.value.id))]
  {
    if user.None? then (ModalState(st.form, false, failMessage), [])
    else
      var body := WithAuthId(st.form, user.value.id);
      if reply.Ok? then (ModalState(defaults, false, ""), AcceptedEffects(body, hasOnSuccess))
      else (ModalState(st.form, false, failMessage), [Posted(body)])
  }

  /** Every post that is sent carries the form as it was plus the user's id, whatever
      the backend answers; the callbacks run only when it accepted the post. */
  lemma PostSendsTheForm(st: ModalState, u: User, hasOnSuccess: bool, reply: ApiResult<()>,
                         defaults: map<string, FieldValue>, failMessage: string)
    ensures var r := Post(st, Some(u), hasOnSuccess, reply, defaults, failMessage);
      && r.1 != [] && r.1[0] == Posted(WithAuthId(st.form, u.id))
      && (CalledOnClose in r.1 <==> reply.Ok?)
      && (r.0.form == defaults || r.0.form == st.form)
  {
  }
}
