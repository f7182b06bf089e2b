/** Property kinds and their validators: the per-kind coercion contract that
    the property tests pin down, `FloatPairProp._validate` of the widget
    module, and the custom `'abc'` validator of the tests. */
module Properties {
  import opened Wrappers
  import opened Values
  import Text

  /** The declared kind of a property. `AbcKind` is the custom property of
      the tests whose values must be "a", "b" or "c". */
  datatype Kind =
    | AnyKind
    | BoolKind
    | IntKind
    | FloatKind
    | StringKind
    | TupleKind
    | ListKind
    | ComponentKind
    | FloatPairKind
    | AbcKind

  /** An element FloatPairProp admits: `isinstance(x, (int, float))` or a
      string. */
  predicate PairElement(v: Value)
  {
    IsNumber(v) || v.Str?
  }

  /** The two elements FloatPairProp works on: the items of a tuple or list,
      otherwise the value twice. */
  function PairOf(v: Value): seq<Value>
  {
    if IsSequence(v) then v.items else [v, v]
  }

  /** `FloatPairProp._validate`: a scalar is broadcast to a pair, anything
      not of length two is a TypeError, each element must be a number or a
      string (TypeError), then each is converted with `float()` (a string
      that is not a number raises ValueError). */
  function ValidateFloatPair(v: Value): (r: Result<Value, Error>)
    ensures r.Success? ==>
      r.value.Tuple? && |r.value.items| == 2 && r.value.items[0].Float? && r.value.items[1].Float?
    ensures r.Success? ==>
      |PairOf(v)| == 2 && PairElement(PairOf(v)[0]) && PairElement(PairOf(v)[1]) &&
      ToFloat(PairOf(v)[0]).Success? && ToFloat(PairOf(v)[1]).Success? &&
      r.value.items[0].r == ToFloat(PairOf(v)[0]).value && r.value.items[1].r == ToFloat(PairOf(v)[1]).value
    ensures !IsSequence(v) && IsNumber(v) ==>
      r.Success? && r.value.items[0] == r.value.items[1] == Float(ToFloat(v).value)
    ensures IsSequence(v) && |v.items| != 2 ==> r == Failure(TypeError)
    ensures !IsSequence(v) && !PairElement(v) ==> r == Failure(TypeError)
    ensures |PairOf(v)| == 2 && !(PairElement(PairOf(v)[0]) && PairElement(PairOf(v)[1])) ==>
      r == Failure(TypeError)
    ensures |PairOf(v)| == 2 && PairElement(PairOf(v)[0]) && PairElement(PairOf(v)[1]) ==>
      (r.Success? <==> ToFloat(PairOf(v)[0]).Success? && ToFloat(PairOf(v)[1]).Success?)
    ensures var p := PairOf(v);
      |p| == 2 && PairElement(p[0]) && PairElement(p[1]) && !(ToFloat(p[0]).Success? && ToFloat(p[1]).Success?)
      ==> r == Failure(ValueError)
  {
    var pair := PairOf(v);
    if |pair| != 2 then Failure(TypeError)
    else if !PairElement(pair[0]) then Failure(TypeError)
    else if !PairElement(pair[1]) then Failure(TypeError)
    else
      var a := ToFloat(pair[0]);
      var b := ToFloat(pair[1]);
      if a.Failure? then Failure(a.error)
      else if b.Failure? then Failure(b.error)
      else Success(Tuple([Float(a.value), Float(b.value)]))
  }

  /** `MyCustomProp._validate` AS WRITTEN: `value not in 'abc'` is a
      substring test when the value is a string (so "", "ab", "bc" and "abc"
      pass), and raises TypeError for any other value. */
  function ValidateAbcAsWritten(v: Value): (r: Result<Value, Error>)
    ensures r.Success? <==> v.Str? && Text.Contains("abc", v.s)
    ensures r.Success? ==> r.value == v
    ensures r.Failure? ==> r.error == TypeError
  {
    if v.Str? && Text.Contains("abc", v.s) then Success(v) else Failure(TypeError)
  }

  /** The three values the custom property's error message allows. */
  predicate IsAbc(v: Value)
  {
    v == Str("a") || v == Str("b") || v == Str("c")
  }

  /** The custom validator as its error message states it: exactly "a", "b"
      or "c", anything else is a TypeError. */
  function ValidateAbc(v: Value): (r: Result<Value, Error>)
    ensures r.Success? <==> IsAbc(v)
    ensures r.Success? ==> r.value == v
    ensures r.Failure? ==> r.error == TypeError
  {
    if IsAbc(v) then Success(v) else Failure(TypeError)
  }

  /** The substring test lets through strings the message rules out, while
      agreeing with the corrected validator on every value the tests use. */
  lemma AbcSubstringAcceptsMore()
    ensures ValidateAbcAsWritten(Str("ab")).Success? && ValidateAbc(Str("ab")).Failure?
    ensures ValidateAbcAsWritten(Str("")).Success? && ValidateAbc(Str("")).Failure?
    ensures ValidateAbcAsWritten(Str("c")) == ValidateAbc(Str("c")) == Success(Str("c"))
    ensures ValidateAbcAsWritten(Str("d")) == ValidateAbc(Str("d")) == Failure(TypeError)
    ensures ValidateAbcAsWritten(Int(3)) == ValidateAbc(Int(3)) == Failure(TypeError)
  {
    assert Str("ab").s <= "abc";
    assert !Text.Contains("abc"[3..], "d");
  }

  /** On single characters the two validators agree: the substring test is
      only wrong on strings of another length. */
  lemma AbcAgreesOnCharacters(c: char)
    ensures ValidateAbcAsWritten(Str([c])) == ValidateAbc(Str([c]))
  {
    Text.ContainsAt("abc", [c]);
    if c == 'a' {
      assert Text.OccursAt("abc", [c], 0);
    } else if c == 'b' {
      assert Text.OccursAt("abc", [c], 1);
    } else if c == 'c' {
      assert Text.OccursAt("abc", [c], 2);
    } else {
      forall i | 0 <= i <= 2 ensures !Text.OccursAt("abc", [c], i) {
        assert "abc"[i..i + 1] == ["abc"[i]];
      }
    }
  }

  /** The values a kind's validator admits (its declared domain). */
  predicate Admits(k: Kind, v: Value)
  {
    match k
    case AnyKind => true
    case BoolKind => true
    case IntKind => IsNumber(v) || (v.Str? && ParseInt(v.s).Some?)
    case FloatKind => IsNumber(v) || (v.Str? && ParseFloat(v.s).Some?)
    case StringKind => v.Str?
    case TupleKind => IsSequence(v)
    case ListKind => IsSequence(v)
    case ComponentKind => v.Null? || v.Comp?
    case FloatPairKind => ValidateFloatPair(v).Success?
    case AbcKind => IsAbc(v)
  }

  /** The normalised values a property of kind `k` may hold. */
  predicate Conforms(k: Kind, v: Value)
  {
    match k
    case AnyKind => true
    case BoolKind => v.Bool?
    case IntKind => v.Int?
    case FloatKind => v.Float?
    case StringKind => v.Str?
    case TupleKind => v.Tuple?
    case ListKind => v.List?
    case ComponentKind => v.Null? || v.Comp?
    case FloatPairKind => v.Tuple? && |v.items| == 2 && v.items[0].Float? && v.items[1].Float?
    case AbcKind => IsAbc(v)
  }

  /** A property's validator: either the normalised value, or the error the
      setter raises. Bool never fails (truthiness), Int and Float convert
      numbers and numeric strings, Tuple and List copy a sequence into a new
      container, Component passes a component or None through unchanged. */
  function Validate(k: Kind, v: Value): (r: Result<Value, Error>)
    ensures r.Success? <==> Admits(k, v)
    ensures r.Success? ==> Conforms(k, r.value)
    ensures r.Failure? && !v.Str? && k != FloatPairKind ==> r.error == TypeError
    ensures k == BoolKind ==> r == Success(Bool(Truthy(v)))
    ensures k == IntKind && r.Success? ==> r.value == Int(ToInt(v).value)
    ensures k == FloatKind && r.Success? ==> r.value == Float(ToFloat(v).value)
    ensures (k == TupleKind || k == ListKind) && r.Success? ==> r.value.items == v.items
    ensures (k == AnyKind || k == StringKind || k == ComponentKind) && r.Success? ==> r.value == v
  {
    match k
    case AnyKind => Success(v)
    case BoolKind => Success(Bool(Truthy(v)))
    case IntKind =>
      if IsNumber(v) || v.Str? then
        var n := ToInt(v);
        if n.Success? then Success(Int(n.value)) else Failure(n.error)
      else Failure(TypeError)
    case FloatKind =>
      if IsNumber(v) || v.Str? then
        var x := ToFloat(v);
        if x.Success? then Success(Float(x.value)) else Failure(x.error)
      else Failure(TypeError)
    case StringKind => if v.Str? then Success(v) else Failure(TypeError)
    case TupleKind => if IsSequence(v) then Success(Tuple(v.items)) else Failure(TypeError)
    case ListKind => if IsSequence(v) then Success(List(v.items)) else Failure(TypeError)
    case ComponentKind => if v.Null? || v.Comp? then Success(v) else Failure(TypeError)
    case FloatPairKind => ValidateFloatPair(v)
    case AbcKind => ValidateAbc(v)
  }

  /** Normalised values are fixed points of their validator. */
  lemma ConformingIsFixedPoint(k: Kind, v: Value)
    requires Conforms(k, v)
    ensures Validate(k, v) == Success(v)
  {
    if k == FloatPairKind {
      assert v == Tuple([v.items[0], v.items[1]]);
    }
  }

  /** Validation is idempotent: validating an already validated value gives
      it back unchanged. */
  lemma ValidateIdempotent(k: Kind, v: Value)
    requires Validate(k, v).Success?
    ensures Validate(k, Validate(k, v).value) == Validate(k, v)
  {
    ConformingIsFixedPoint(k, Validate(k, v).value);
  }

  /** The Int kind truncates 42.9 to 42, parses "9" to 9 and rejects an
      arbitrary object with a TypeError. */
  lemma IntCoercions(obj: nat)
    ensures Validate(IntKind, Float(42.9)) == Success(Int(42))
    ensures Validate(IntKind, Str("9")) == Success(Int(9))
    ensures Validate(IntKind, Object(obj)) == Failure(TypeError)
  {
    IntTruncatesFloat();
    IntParsesNine();
    IntRejectsObject(obj);
  }

  lemma IntRejectsObject(obj: nat)
    ensures Validate(IntKind, Object(obj)) == Failure(TypeError)
  {
    assert !IsNumber(Object(obj)) && !Object(obj).Str?;
  }

  lemma IntTruncatesFloat()
    ensures Validate(IntKind, Float(42.9)) == Success(Int(42))
  {
    assert Truncate(42.9) == 42;
    assert ToInt(Float(42.9)) == Success(42);
  }

  lemma IntParsesNine()
    ensures Validate(IntKind, Str("9")) == Success(Int(9))
  {
    assert AllDigits("9") && DigitsValue("9") == 9;
    ParseDigits("9");
    IntOfString("9", 9);
  }

  /** The Int kind stores what `int(s)` parses. */
  lemma IntOfString(s: string, n: int)
    requires ParseInt(s) == Some(n)
    ensures Validate(IntKind, Str(s)) == Success(Int(n))
  {
    IntOfParsed(s, n);
  }

  lemma IntOfParsed(s: string, n: int)
    requires ParseInt(s) == Some(n)
    ensures ToInt(Str(s)) == Success(n)
  {
  }

  /** The Float kind keeps 42.9, parses "9.1" and rejects an object. */
  lemma FloatCoercions(obj: nat)
    ensures Validate(FloatKind, Float(42.9)) == Success(Float(42.9))
    ensures Validate(FloatKind, Str("9.1")) == Success(Float(9.1))
    ensures Validate(FloatKind, Object(obj)) == Failure(TypeError)
  {
    FloatParsesNinePointOne();
    FloatKeepsFloats(42.9);
    FloatRejectsObject(obj);
  }

  lemma FloatRejectsObject(obj: nat)
    ensures Validate(FloatKind, Object(obj)) == Failure(TypeError)
  {
    assert !IsNumber(Object(obj)) && !Object(obj).Str?;
  }

  lemma FloatParsesNinePointOne()
    ensures Validate(FloatKind, Str("9.1")) == Success(Float(9.1))
  {
    ParseNinePointOne();
    FloatOfString("9.1", 9.1);
  }

  /** The Float kind stores what `float(s)` parses. */
  lemma FloatOfString(s: string, x: real)
    requires ParseFloat(s) == Some(x)
    ensures Validate(FloatKind, Str(s)) == Success(Float(x))
  {
    FloatOfParsed(s, x);
  }

  lemma FloatOfParsed(s: string, x: real)
    requires ParseFloat(s) == Some(x)
    ensures ToFloat(Str(s)) == Success(x)
  {
  }

  lemma FloatKeepsFloats(x: real)
    ensures Validate(FloatKind, Float(x)) == Success(Float(x))
  {
    assert ToFloat(Float(x)) == Success(x);
  }

  lemma ParseNinePointOne()
    ensures ParseFloat("9.1") == Some(9.1)
  {
    Text.TrimOfTrimmed("9.1");
    assert SignOf("9.1") == (1, "9.1");
    assert "9.1" == "9" + ['.'] + "1";
    Text.SplitAtFirst("9", '.', "1");
    Text.SplitNoSeparator("1", '.');
    assert Text.Split("9.1", '.') == ["9", "1"];
    assert AllDigits("9") && DigitsValue("9") == 9;
    assert AllDigits("1") && DigitsValue("1") == 1;
    assert Pow10(1) == 10;
  }

  /** The Bool kind stores truthiness: 42 is true, "" is false, any object
      is true. */
  lemma BoolCoercions(obj: nat)
    ensures Validate(BoolKind, Int(42)) == Success(Bool(true))
    ensures Validate(BoolKind, Str("")) == Success(Bool(false))
    ensures Validate(BoolKind, Object(obj)) == Success(Bool(true))
  {
  }

  /** The rejections the tests assert: String rejects 3; Tuple and List
      reject 3, None and "asd"; Component rejects 3, the loop object and
      "asd"; the custom property rejects 3, the loop object and "d". */
  lemma Rejections(obj: nat)
    ensures Validate(StringKind, Int(3)).Failure?
    ensures forall v :: v in [Int(3), Null, Str("asd")] ==>
      Validate(TupleKind, v).Failure? && Validate(ListKind, v).Failure?
    ensures forall v :: v in [Int(3), Object(obj), Str("asd")] ==> Validate(ComponentKind, v).Failure?
    ensures forall v :: v in [Int(3), Object(obj), Str("d")] ==> Validate(AbcKind, v).Failure?
  {
  }
}
