/**
 * The values a property can hold, and the closed set of method bodies the
 * test suite defines. A method is data evaluated against an explicit
 * receiver, so `this` is bound when the method is called, not when it is
 * defined.
 */
module Values {

  /** What a JavaScript program would see thrown. */
  datatype Error =
    | FrozenMutation  // writing to, adding to or deleting from a frozen prototype store
    | TypeError       // calling a value that is not a function, reading a property of undefined
    | RangeError      // the call stack is exhausted

  /** The right-hand sides the fixture initializers use. */
  datatype Expr =
    | Arg(index: nat)                // the index-th argument; undefined when absent
    | ArgKey(index: nat, key: string) // a property of the index-th argument, as `options.name`
    | Lit(v: Value)                  // a constant

  /** The statements of a method body that runs for its effect on `this`. */
  datatype Stmt =
    | Assign(field: string, rhs: Expr)                       // this.field = rhs
    | CallSuper(store: nat, key: string, args: seq<Expr>)   // Store.key.call(this, args...)

  /** The methods defined in the test suite. */
  datatype Method =
    | Body(stmts: seq<Stmt>)  // initialize, rename(name), init(number): statements run on `this`
    | Greet                   // return "hello " + this.name
    | GetField(field: string) // return this.field, as the overriding `rename`
    | Hex                     // return "#" + this.color
    | Red                     // parseInt(this.color.substr(0, 2), 16)
    | Green                   // parseInt(this.color.substr(2, 2), 16)
    | Blue                    // parseInt(this.color.substr(4, 2), 16)
    | Describe                // toString: this.x + ":" + this.y + "@" + this.hex()

  datatype Value =
    | Undefined
    | NaN
    | Num(n: int)
    | Str(s: string)
    | Fn(m: Method)
    | Bag(fields: map<string, Value>)  // a plain object literal passed as an argument

  function DecimalDigit(d: nat): (c: char)
    requires d < 10
    ensures '0' <= c <= '9' && c as int - '0' as int == d
  {
    ('0' as int + d) as char
  }

  predicate IsDecimal(s: string) {
    forall i | 0 <= i < |s| :: '0' <= s[i] <= '9'
  }

  /** The decimal numeral of a natural number, without leading zeros. */
  function NatToDecimal(n: nat): (s: string)
    ensures s != [] && IsDecimal(s)
  {
    if n < 10 then [DecimalDigit(n)] else NatToDecimal(n / 10) + [DecimalDigit(n % 10)]
  }

  /** The number a decimal numeral denotes: the partner of `NatToDecimal`. */
  function DecimalValue(s: string): nat
    requires IsDecimal(s)
  {
    if s == [] then 0 else 10 * DecimalValue(s[..|s| - 1]) + (s[|s| - 1] as int - '0' as int)
  }

  /** How JavaScript renders an integer in a string concatenation. */
  function IntToString(n: int): string {
    if n < 0 then "-" + NatToDecimal(-n) else NatToDecimal(n)
  }

  /** The string `"" + v` produces. */
  function Render(v: Value): string {
    match v
    case Undefined => "undefined"
    case NaN => "NaN"
    case Num(n) => IntToString(n)
    case Str(s) => s
    case Fn(_) => "function"
    case Bag(_) => "[object Object]"
  }

  /** Reading a numeral back gives the number, and the numeral has no leading zero. */
  lemma {:induction false} DecimalRoundTrip(n: nat)
    ensures DecimalValue(NatToDecimal(n)) == n
    ensures NatToDecimal(n)[0] == '0' ==> n == 0
  {
    if n >= 10 {
      DecimalRoundTrip(n / 10);
      var s := NatToDecimal(n);
      assert s[..|s| - 1] == NatToDecimal(n / 10);
    }
  }

  /** Distinct integers render as distinct strings. */
  lemma {:induction false} IntToStringInjective(a: int, b: int)
    requires IntToString(a) == IntToString(b)
    ensures a == b
  {
    SignOf(a);
    SignOf(b);
    if a < 0 {
      var sa, sb := NatToDecimal(-a), NatToDecimal(-b);
      assert sa == IntToString(a)[1..];
      assert sb == IntToString(b)[1..];
      DecimalRoundTrip(-a);
      DecimalRoundTrip(-b);
    } else {
      DecimalRoundTrip(a);
      DecimalRoundTrip(b);
    }
  }

  /** A rendered integer starts with a minus sign exactly when it is negative. */
  lemma {:induction false} SignOf(n: int)
    ensures IntToString(n) != [] && (IntToString(n)[0] == '-' <==> n < 0)
  {
    if n >= 0 {
      assert IsDecimal(NatToDecimal(n));
    }
  }
}
