/** Image labels and the numbers and variants written into them. */
module Labels {
  import opened Basics
  import opened Specs
  import opened Hashing

  /** Label names; all but the last constructor stand for `stackwarden.<name>`. */
  datatype LabelKey =
    | ProfileId | StackId | FingerprintKey | BaseDigest
    | StackSchema | ProfileSchema | LayerSchema | BlockSchema
    | TemplateHash | Strategy | PipMode | PipWheelhousePath
    | TupleId | TupleStatus | TupleMode | TupleBaseHint | TupleWheelhouseHint | WheelhouseHint
    | BuilderVersion | CreatedAt | VariantsKey | BuildOptimizationKey | HostOptimization
    | OtherStackwarden(suffix: string)
    | Foreign(name: string)

  type LabelMap = map<LabelKey, string>

  /** `labels.get(key, "")`. */
  function Get(labels: LabelMap, key: LabelKey): string { if key in labels then labels[key] else "" }

  /** A label that is absent reads as the empty text. */
  lemma {:induction false} GetIs(labels: LabelMap, key: LabelKey)
    ensures key in labels ==> Get(labels, key) == labels[key]
    ensures key !in labels ==> Get(labels, key) == ""
  {
  }

  /** `str(n)` for a natural number. */
  function ShowNat(n: nat): (s: string)
    ensures s != ""
  {
    if n < 10 then [Digit(n)] else ShowNat(n / 10) + [Digit(n % 10)]
  }

  function Digit(d: nat): char
    requires d < 10
  {
    ('0' as int + d) as char
  }

  function ShowInt(n: int): string { if n < 0 then "-" + ShowNat(-n) else ShowNat(n) }

  predicate IsDigit(c: char) { '0' <= c <= '9' }

  function ReadNat(s: string): Option<nat> {
    if s == "" then None
    else
      var last := s[|s| - 1];
      if !IsDigit(last) then None
      else if |s| == 1 then Some(last as int - '0' as int)
      else
        match ReadNat(s[..|s| - 1])
        case None => None
        case Some(n) => Some(10 * n + (last as int - '0' as int))
  }

  function Negated(n: Option<nat>): Option<int> {
    match n
    case None => None
    case Some(k) => var value: int := k; Some(-value)
  }

  /** Python's `int(text)` on decimal text, surrounding whitespace and a sign allowed. */
  function ReadInt(text: string): Option<int> {
    var s := Strip(text);
    if s != "" && s[0] == '-' then Negated(ReadNat(s[1..]))
    else if s != "" && s[0] == '+' then ReadNat(s[1..])
    else ReadNat(s)
  }

  lemma {:induction false} ReadShownNat(n: nat)
    ensures ReadNat(ShowNat(n)) == Some(n)
    ensures forall c :: c in ShowNat(n) ==> IsDigit(c)
  {
    if n >= 10 {
      ReadShownNat(n / 10);
      var s := ShowNat(n);
      assert s[..|s| - 1] == ShowNat(n / 10);
    }
  }

  lemma {:induction false} StripDense(s: string)
    requires s != "" && !IsSpace(s[0]) && !IsSpace(s[|s| - 1])
    ensures Strip(s) == s
  {
  }

  predicate AllDigits(s: string) { s != "" && forall c :: c in s ==> IsDigit(c) }

  lemma {:induction false} ReadDigits(digits: string)
    requires AllDigits(digits)
    ensures ReadInt(digits) == ReadNat(digits)
  {
    assert digits[0] in digits && digits[|digits| - 1] in digits;
    StripDense(digits);
  }

  lemma {:induction false} ReadMinus(digits: string)
    requires AllDigits(digits)
    ensures ReadInt("-" + digits) == Negated(ReadNat(digits))
  {
    var s := "-" + digits;
    assert s[|s| - 1] == digits[|digits| - 1] && digits[|digits| - 1] in digits;
    assert s[1..] == digits;
    StripDense(s);
  }

  /** Numbers written into labels read back as themselves. */
  lemma {:induction false} ReadShownInt(n: int)
    ensures ReadInt(ShowInt(n)) == Some(n) && ShowInt(n) != ""
  {
    if n < 0 {
      ReadShownNat(-n);
      ReadMinus(ShowNat(-n));
    } else {
      ReadShownNat(n);
      ReadDigits(ShowNat(n));
    }
  }

  lemma {:induction false} NoLeadingZero(n: nat)
    ensures n > 0 ==> ShowNat(n)[0] != '0'
    ensures forall c :: c in ShowNat(n) ==> c != '-'
  {
    if n >= 10 {
      NoLeadingZero(n / 10);
    }
  }

  /** Numbers are written without leading zeros, and with a sign exactly when negative. */
  lemma {:induction false} ShownPlainly(n: int)
    ensures '-' in ShowInt(n) <==> n < 0
    ensures n < 0 ==> |ShowInt(n)| > 1 && ShowInt(n)[0] == '-' && ShowInt(n)[1] != '0'
    ensures n > 0 ==> ShowInt(n)[0] != '0'
    ensures n == 0 ==> ShowInt(n) == "0"
  {
    NoLeadingZero(if n < 0 then -n else n);
  }

  /** Compact JSON of a variant dictionary and its parser. */
  datatype VariantCodec = VariantCodec(encode: Variants -> string, decode: string -> Option<Variants>)

  ghost predicate Faithful(codec: VariantCodec) {
    forall v :: codec.decode(codec.encode(v)) == Some(v) && codec.encode(v) != ""
  }
}
