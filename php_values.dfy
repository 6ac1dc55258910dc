/** PHP values as the payment adapter sees them: decoded JSON bodies, array
    reads, loose truthiness, string conversion and array-key normalisation. */
module PhpValues {

  datatype Option<T> = None | Some(value: T)

  datatype Result<T, E> = Success(value: T) | Failure(error: E)

  /** A decoded JSON document or PHP scalar. PHP arrays are ordered lists of
      key/value entries; integer keys are kept as their decimal strings. */
  datatype Value =
    | Null
    | Bool(b: bool)
    | Int(i: int)
    | Str(s: string)
    | Arr(entries: seq<(string, Value)>)

  /** Position of the first entry stored under `key`, or `|entries|` when there is none. */
  function KeyIndex(entries: seq<(string, Value)>, key: string): (k: nat)
    ensures k <= |entries|
    ensures forall j :: 0 <= j < k ==> entries[j].0 != key
    ensures k < |entries| ==> entries[k].0 == key
  {
    if |entries| == 0 then 0
    else if entries[0].0 == key then 0
    else 1 + KeyIndex(entries[1..], key)
  }

  /** `$entries[$key]`: the value under `key`, null when the key is absent. */
  function Get(entries: seq<(string, Value)>, key: string): (r: Value)
    ensures r != Null ==> exists j :: 0 <= j < |entries| && entries[j] == (key, r)
    ensures (forall j :: 0 <= j < |entries| ==> entries[j].0 != key) ==> r == Null
    ensures forall j :: 0 <= j < |entries| && entries[j].0 == key && (forall i :: 0 <= i < j ==> entries[i].0 != key)
                        ==> r == entries[j].1
  {
    var k := KeyIndex(entries, key);
    if k < |entries| then entries[k].1 else Null
  }

  /** `$v[$key]`: reading an offset of anything but an array yields null. */
  function Index(v: Value, key: string): (r: Value)
    ensures !v.Arr? ==> r == Null
    ensures r != Null ==> v.Arr? && exists j :: 0 <= j < |v.entries| && v.entries[j] == (key, r)
    ensures v.Arr? && (forall j :: 0 <= j < |v.entries| ==> v.entries[j].0 != key) ==> r == Null
    ensures v.Arr? && KeyIndex(v.entries, key) < |v.entries| ==> r == v.entries[KeyIndex(v.entries, key)].1
  {
    if v.Arr? then Get(v.entries, key) else Null
  }

  /** On an array, `$v[$key]` is the value of the first entry stored under `key`. */
  lemma IndexReadsFirstEntry(v: Value, key: string, j: nat)
    requires v.Arr? && j < |v.entries| && v.entries[j].0 == key
    requires forall i :: 0 <= i < j ==> v.entries[i].0 != key
    ensures Index(v, key) == v.entries[j].1
  {
    assert KeyIndex(v.entries, key) == j;
  }

  /** `isset($v[$key])`: the key is present and not null. */
  predicate IsSet(v: Value, key: string)
    ensures IsSet(v, key) <==>
              v.Arr? && exists j :: 0 <= j < |v.entries| && v.entries[j].0 == key && v.entries[j].1 != Null
                                    && forall k :: 0 <= k < j ==> v.entries[k].0 != key
  {
    Index(v, key) != Null
  }

  /** `$v == true`: PHP converts the other operand to bool; exactly null,
      false, 0, "", "0" and the empty array are falsy. */
  predicate Truthy(v: Value)
    ensures !Truthy(v) <==> v in {Null, Bool(false), Int(0), Str(""), Str("0"), Arr([])}
  {
    match v
    case Null => false
    case Bool(b) => b
    case Int(i) => i != 0
    case Str(s) => s != "" && s != "0"
    case Arr(entries) => |entries| > 0
  }

  predicate IsDigit(c: char)
  {
    '0' <= c <= '9'
  }

  predicate AllDigits(s: string)
  {
    forall k :: 0 <= k < |s| ==> IsDigit(s[k])
  }

  function DigitChar(d: nat): char
    requires d < 10
  {
    ('0' as int + d) as char
  }

  function DigitValue(c: char): nat
    requires IsDigit(c)
  {
    c as int - '0' as int
  }

  /** Decimal notation of a natural number, without leading zeros. */
  function NatToDecimal(n: nat): (s: string)
    ensures |s| > 0 && AllDigits(s)
    ensures |s| > 1 ==> s[0] != '0'
    decreases n
  {
    if n < 10 then [DigitChar(n)] else NatToDecimal(n / 10) + [DigitChar(n % 10)]
  }

  /** The number a string of digits denotes. */
  function DecimalValue(s: string): nat
    requires AllDigits(s)
  {
    if s == [] then 0 else DecimalValue(s[..|s| - 1]) * 10 + DigitValue(s[|s| - 1])
  }

  /** PHP's string form of an integer. */
  function IntToDecimal(i: int): string
  {
    if i < 0 then "-" + NatToDecimal(-i) else NatToDecimal(i)
  }

  lemma {:induction false} DecimalRoundTrip(n: nat)
    ensures DecimalValue(NatToDecimal(n)) == n
  {
    if n >= 10 {
      var s := NatToDecimal(n);
      assert s[..|s| - 1] == NatToDecimal(n / 10);
      DecimalRoundTrip(n / 10);
    }
  }

  /** Distinct integers have distinct string forms, so integer array keys never collide. */
  lemma IntToDecimalInjective(i: int, j: int)
    requires IntToDecimal(i) == IntToDecimal(j)
    ensures i == j
  {
    var s := IntToDecimal(i);
    if i < 0 && j < 0 {
      assert NatToDecimal(-i) == s[1..] == NatToDecimal(-j);
      DecimalRoundTrip(-i);
      DecimalRoundTrip(-j);
    } else if i >= 0 && j >= 0 {
      DecimalRoundTrip(i);
      DecimalRoundTrip(j);
    }
  }

  /** PHP's conversion of a value to string, as used by the `.` operator.
      An array converts to the literal "Array". */
  function ToPhpString(v: Value): (r: string)
    ensures r == "" <==> v in {Null, Bool(false), Str("")}
    ensures v.Str? ==> r == v.s
    ensures v.Int? && v.i >= 0 ==> AllDigits(r) && DecimalValue(r) == v.i
    ensures v.Int? && v.i < 0 ==> r[0] == '-' && AllDigits(r[1..]) && DecimalValue(r[1..]) == -v.i
    ensures v.Int? && v.i >= 0 && |r| > 1 ==> r[0] != '0'
    ensures v.Int? && v.i < 0 && |r| > 2 ==> r[1] != '0'
    ensures v == Bool(true) ==> r == "1"
    ensures v.Arr? ==> r == "Array"
  {
    match v
    case Null => ""
    case Bool(b) => if b then "1" else ""
    case Int(i) =>
      DecimalRoundTrip(if i >= 0 then i else -i);
      assert i < 0 ==> IntToDecimal(i)[1..] == NatToDecimal(-i);
      IntToDecimal(i)
    case Str(s) => s
    case Arr(_) => "Array"
  }

  /** The array key a value is used as in `$a[$v]`: null becomes "", a bool
      becomes 0 or 1, an integer its decimal string; an array is no valid key. */
  function ArrayKey(v: Value): (r: Option<string>)
    ensures r.None? <==> v.Arr?
    ensures v.Null? ==> r == Some("")
    ensures v.Str? ==> r == Some(v.s)
    ensures v.Int? ==> |r.value| > 0
    ensures v.Int? && v.i >= 0 ==> AllDigits(r.value) && DecimalValue(r.value) == v.i
    ensures v.Int? && v.i < 0 ==> r.value[0] == '-' && AllDigits(r.value[1..]) && DecimalValue(r.value[1..]) == -v.i
  {
    match v
    case Null => Some("")
    case Bool(b) => Some(if b then "1" else "0")
    case Int(_) => Some(ToPhpString(v))
    case Str(s) => Some(s)
    case Arr(_) => None
  }

  /** An integer used as an array key names the key spelled with its digits, and only that one. */
  lemma IntKeyIsDecimal(i: int, n: nat)
    ensures ArrayKey(Int(i)) == Some(NatToDecimal(n)) <==> i == n
  {
    if ArrayKey(Int(i)) == Some(NatToDecimal(n)) {
      assert IntToDecimal(i) == IntToDecimal(n);
      IntToDecimalInjective(i, n);
    }
  }

  /** An integer key never spells a string that contains a letter. */
  lemma IntKeyHasNoLetter(i: int, k: nat)
    requires k < |IntToDecimal(i)|
    ensures IsDigit(IntToDecimal(i)[k]) || IntToDecimal(i)[k] == '-'
  {
    if i < 0 && k > 0 {
      assert IntToDecimal(i)[k] == NatToDecimal(-i)[k - 1];
    }
  }
}
