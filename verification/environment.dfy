/**
 * Environments (string to string maps), the resume store (path to the
 * environment captured when that element finished), and the coercion
 * of the caller's initial environment to strings.
 */
module Environment {
  import opened Tree

  type Env = map<string, string>

  /** Resume store: element path to the environment recorded for it. */
  type Store = map<Path, Env>

  /**
   * Ruby's `Hash#merge`: every key of `over` takes its value from `over`,
   * every other key of `base` keeps its value, nothing else is present.
   * Used for environments and for the plugin registry alike.
   */
  function Merge<K, V>(base: map<K, V>, over: map<K, V>): (r: map<K, V>)
    ensures r.Keys == base.Keys + over.Keys
    ensures forall k :: k in over ==> r[k] == over[k]
    ensures forall k :: k in base && k !in over ==> r[k] == base[k]
  {
    base + over
  }

  const XpathVar: string := "XPATH"

  /**
   * The environment a `shell` element's command receives: the scope's
   * environment with `XPATH` set to the element's path.
   */
  function ShellEnv(env: Env, path: Path): (r: Env)
    ensures r.Keys == env.Keys + {XpathVar}
    ensures r[XpathVar] == path
    ensures forall k :: k in env && k != XpathVar ==> r[k] == env[k]
  {
    Merge(env, map[XpathVar := path])
  }

  /** `s'` keeps every entry of `s` unchanged and may add new ones. */
  ghost predicate Extends(s: Store, s': Store)
  {
    && s.Keys <= s'.Keys
    && forall p :: p in s ==> s'[p] == s[p]
  }

  /** Keys and values a caller may put in the initial environment. */
  datatype Value = VStr(s: string) | VSym(name: string) | VInt(i: int) | VBool(b: bool) | VNil

  predicate IsDigit(c: char)
  {
    '0' <= c <= '9'
  }

  ghost predicate AllDigits(s: string)
  {
    forall k :: 0 <= k < |s| ==> IsDigit(s[k])
  }

  function Digit(d: nat): (c: char)
    requires d < 10
    ensures IsDigit(c) && c as int - '0' as int == d
  {
    (d + '0' as int) as char
  }

  /** Decimal digits of `n`, most significant first, without leading zeros. */
  function NatToString(n: nat): (s: string)
    ensures |s| > 0 && AllDigits(s)
    ensures s[0] == '0' ==> n == 0
  {
    if n < 10 then [Digit(n)] else NatToString(n / 10) + [Digit(n % 10)]
  }

  /** The number a string of decimal digits denotes. */
  function DigitsValue(s: string): nat
    requires AllDigits(s)
  {
    if s == [] then 0 else 10 * DigitsValue(s[..|s| - 1]) + (s[|s| - 1] as int - '0' as int)
  }

  lemma {:induction false} NatToStringValue(n: nat)
    ensures DigitsValue(NatToString(n)) == n
  {
    if n >= 10 {
      NatToStringValue(n / 10);
      var s := NatToString(n);
      assert s[..|s| - 1] == NatToString(n / 10);
    }
  }

  function Pow10(n: nat): (p: nat)
    ensures p >= 1
  {
    if n == 0 then 1 else 10 * Pow10(n - 1)
  }

  /** `n` digits denote less than ten to the `n`. */
  lemma {:induction false} DigitsValueBelow(s: string)
    requires AllDigits(s)
    ensures DigitsValue(s) < Pow10(|s|)
  {
    if s != [] {
      DigitsValueBelow(s[..|s| - 1]);
    }
  }

  /** `n` digits with a leading digit other than zero denote at least ten to the `n - 1`. */
  lemma {:induction false} DigitsValueAtLeast(s: string)
    requires AllDigits(s) && s != [] && s[0] != '0'
    ensures DigitsValue(s) >= Pow10(|s| - 1)
  {
    if |s| > 1 {
      DigitsValueAtLeast(s[..|s| - 1]);
    }
  }

  /** `Integer#to_s`: an optional minus sign followed by the decimal digits. */
  function IntToString(i: int): (s: string)
  {
    if i < 0 then "-" + NatToString(-i) else NatToString(i)
  }

  /** `IntToString` is read back by sign and digits, so distinct integers print differently. */
  lemma IntToStringReadsBack(i: int)
    ensures var s := IntToString(i);
      && |s| > 0
      && (i < 0 <==> s[0] == '-')
      && (i < 0 ==> AllDigits(s[1..]) && DigitsValue(s[1..]) == -i)
      && (i >= 0 ==> AllDigits(s) && DigitsValue(s) == i)
  {
    if i < 0 {
      NatToStringValue(-i);
      assert IntToString(i)[1..] == NatToString(-i);
    } else {
      NatToStringValue(i);
    }
  }

  /** `to_s` of each kind of initial value. */
  function ToS(v: Value): string
  {
    match v
    case VStr(s) => s
    case VSym(name) => name
    case VInt(i) => IntToString(i)
    case VBool(b) => if b then "true" else "false"
    case VNil => ""
  }

  /** The keys of the initial environment, each printed with `to_s`. */
  ghost function PrintedKeys(pairs: seq<(Value, Value)>): set<string>
  {
    set i | 0 <= i < |pairs| :: ToS(pairs[i].0)
  }

  /** No later pair's key prints the same as pair `i`'s key. */
  ghost predicate LastWithKey(pairs: seq<(Value, Value)>, i: nat)
    requires i < |pairs|
  {
    forall j :: i < j < |pairs| ==> ToS(pairs[j].0) != ToS(pairs[i].0)
  }

  /**
   * The initial environment as the engine sees it: every key and value
   * converted with `to_s`, in the hash's order, so that when two keys
   * print the same (`:a` and `"a"`), the later pair's value wins.
   */
  function Coerce(pairs: seq<(Value, Value)>): (r: Env)
    ensures forall i :: 0 <= i < |pairs| ==> ToS(pairs[i].0) in r && (LastWithKey(pairs, i) ==> r[ToS(pairs[i].0)] == ToS(pairs[i].1))
    ensures forall k :: k in r ==> k in PrintedKeys(pairs)
  {
    if pairs == [] then map[]
    else
      var init, last := pairs[..|pairs| - 1], pairs[|pairs| - 1];
      var prev := Coerce(init);
      CoerceStep(pairs, init, last, prev);
      prev[ToS(last.0) := ToS(last.1)]
  }

  lemma PrintedKeysSnoc(pairs: seq<(Value, Value)>)
    requires pairs != []
    ensures PrintedKeys(pairs) == PrintedKeys(pairs[..|pairs| - 1]) + {ToS(pairs[|pairs| - 1].0)}
  {
    var n := |pairs| - 1;
    var init := pairs[..n];
    forall k | k in PrintedKeys(pairs)
      ensures k in PrintedKeys(init) + {ToS(pairs[n].0)}
    {
      var i :| 0 <= i < |pairs| && k == ToS(pairs[i].0);
      if i < n {
        assert init[i] == pairs[i];
      }
    }
    forall k | k in PrintedKeys(init)
      ensures k in PrintedKeys(pairs)
    {
      var i :| 0 <= i < |init| && k == ToS(init[i].0);
      assert init[i] == pairs[i];
    }
  }

  /** A pair that is the last with its key, and not the final pair, is the last with its key before the final pair too. */
  lemma LastWithKeyInit(pairs: seq<(Value, Value)>, i: nat)
    requires i < |pairs| - 1 && LastWithKey(pairs, i)
    ensures LastWithKey(pairs[..|pairs| - 1], i)
    ensures ToS(pairs[|pairs| - 1].0) != ToS(pairs[i].0)
  {
    var init := pairs[..|pairs| - 1];
    forall j | i < j < |init|
      ensures ToS(init[j].0) != ToS(init[i].0)
    {
      assert init[j] == pairs[j] && init[i] == pairs[i];
    }
  }

  /** Pair `i` of `pairs` after the final pair is written over the environment of the earlier pairs. */
  lemma CoerceStepAt(pairs: seq<(Value, Value)>, init: seq<(Value, Value)>, prev: Env, i: nat)
    requires pairs != [] && init == pairs[..|pairs| - 1] && i < |pairs|
    requires forall j :: 0 <= j < |init| ==> ToS(init[j].0) in prev && (LastWithKey(init, j) ==> prev[ToS(init[j].0)] == ToS(init[j].1))
    ensures var r := prev[ToS(pairs[|pairs| - 1].0) := ToS(pairs[|pairs| - 1].1)];
      ToS(pairs[i].0) in r && (LastWithKey(pairs, i) ==> r[ToS(pairs[i].0)] == ToS(pairs[i].1))
  {
    if i < |init| {
      assert init[i] == pairs[i];
      if LastWithKey(pairs, i) {
        LastWithKeyInit(pairs, i);
      }
    }
  }

  lemma CoerceStep(pairs: seq<(Value, Value)>, init: seq<(Value, Value)>, last: (Value, Value), prev: Env)
    requires pairs != [] && init == pairs[..|pairs| - 1] && last == pairs[|pairs| - 1]
    requires forall i :: 0 <= i < |init| ==> ToS(init[i].0) in prev && (LastWithKey(init, i) ==> prev[ToS(init[i].0)] == ToS(init[i].1))
    requires forall k :: k in prev ==> k in PrintedKeys(init)
    ensures var next := prev[ToS(last.0) := ToS(last.1)];
      && (forall i :: 0 <= i < |pairs| ==> ToS(pairs[i].0) in next && (LastWithKey(pairs, i) ==> next[ToS(pairs[i].0)] == ToS(pairs[i].1)))
      && (forall k :: k in next ==> k in PrintedKeys(pairs))
  {
    PrintedKeysSnoc(pairs);
    forall i | 0 <= i < |pairs|
      ensures var next := prev[ToS(last.0) := ToS(last.1)];
        ToS(pairs[i].0) in next && (LastWithKey(pairs, i) ==> next[ToS(pairs[i].0)] == ToS(pairs[i].1))
    {
      CoerceStepAt(pairs, init, prev, i);
    }
  }
}
