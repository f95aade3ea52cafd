/**
 * The plugin registry: the two built-in plugins and registration of more.
 */
module Plugins {
  import opened Base
  import opened Tree
  import opened Environment
  import opened Engine

  /** `echo`: writes the element's stripped text as one line; fails when the element has no text. */
  function Echo(el: Node, env: Env): (r: Hook)
    ensures r.Returned? <==> el.text.Some?
    ensures r.Returned? ==> r.env == env && r.lines == [Strip(el.text.value)]
  {
    match el.text
    case Some(t) => Returned(env, [Strip(t)])
    case None => Raised("undefined method 'strip' for nil")
  }

  /** Characters `String#to_f` skips before the number. */
  predicate IsFloatBlank(c: char)
  {
    c == ' ' || '\t' <= c <= '\r'
  }

  function SkipBlanks(s: string): (t: string)
    ensures |t| <= |s| && t == s[|s| - |t|..]
    ensures t == [] || !IsFloatBlank(t[0])
    ensures forall k :: 0 <= k < |s| - |t| ==> IsFloatBlank(s[k])
  {
    if s != [] && IsFloatBlank(s[0]) then SkipBlanks(s[1..]) else s
  }

  /** The decimal digits at the start of `s`. */
  function LeadingDigits(s: string): (d: string)
    ensures d <= s
    ensures forall k :: 0 <= k < |d| ==> IsDigit(d[k])
    ensures |d| == |s| || !IsDigit(s[|d|])
  {
    if s != [] && IsDigit(s[0]) then [s[0]] + LeadingDigits(s[1..]) else []
  }

  /** The digits of the unsigned decimal `to_f` reads from the start of `s`: an integer part, then a '.' and a fraction. */
  function MantissaDigits(s: string): string
  {
    var whole := LeadingDigits(s);
    var rest := s[|whole|..];
    if rest != [] && rest[0] == '.' then whole + LeadingDigits(rest[1..]) else whole
  }

  /**
   * `sec.to_f` is below zero: after the blanks comes a minus sign and then
   * a decimal with a digit other than zero. `-0`, `- 1` and `-x` read as zero.
   */
  predicate NegativeSeconds(sec: string)
  {
    var t := SkipBlanks(sec);
    t != [] && t[0] == '-' && exists k :: 0 <= k < |MantissaDigits(t[1..])| && MantissaDigits(t[1..])[k] != '0'
  }

  /**
   * The smallest decimal integer part that `to_f` rounds to 2^63 or more,
   * the first value that does not fit a 64-bit `time_t`: below 2^63 doubles
   * are 1024 apart, so from 2^63 - 512 on the nearest one is 2^63.
   */
  const TimeRangeLimit: nat := 0x8000_0000_0000_0000 - 512

  /**
   * `sec.to_f` is too large for `sleep`: after the blanks and an optional
   * plus sign, its integer part reaches `TimeRangeLimit`.
   */
  predicate OutOfTimeRange(sec: string)
  {
    var t := SkipBlanks(sec);
    var u := if t != [] && t[0] == '+' then t[1..] else t;
    DigitsValue(LeadingDigits(u)) >= TimeRangeLimit
  }

  /**
   * `sleep`: pauses the branch for `sec` seconds, which changes nothing and
   * writes nothing. Ruby's `Kernel#sleep` refuses a negative interval with
   * an `ArgumentError`, and one that does not fit a `time_t` with a
   * `RangeError`; both are `StandardError`s. A missing `sec` reads as zero.
   */
  function Sleep(el: Node, env: Env): (r: Hook)
    ensures r.Raised? <==> "sec" in el.attrs && (NegativeSeconds(el.attrs["sec"]) || OutOfTimeRange(el.attrs["sec"]))
    ensures "sec" in el.attrs && NegativeSeconds(el.attrs["sec"]) ==> r == Raised("time interval must not be negative")
    ensures "sec" in el.attrs && !NegativeSeconds(el.attrs["sec"]) && OutOfTimeRange(el.attrs["sec"]) ==> r == Raised("out of Time range")
    ensures !r.Escaped?
    ensures r.Returned? ==> r.env == env && r.lines == []
  {
    if "sec" in el.attrs && NegativeSeconds(el.attrs["sec"]) then Raised("time interval must not be negative")
    else if "sec" in el.attrs && OutOfTimeRange(el.attrs["sec"]) then Raised("out of Time range")
    else Returned(env, [])
  }

  /** Blanks before the number do not change how it reads. */
  lemma BlankSkipped(sec: string)
    requires sec != [] && IsFloatBlank(sec[0])
    ensures NegativeSeconds(sec) <==> NegativeSeconds(sec[1..])
  {
  }

  /** A minus sign followed by a digit other than zero, or by '.' and such a digit, reads as negative. */
  lemma MinusNonzeroIsNegative(sec: string, at: nat)
    requires (at == 1 || at == 2) && at < |sec| && sec[0] == '-'
    requires at == 2 ==> sec[1] == '.'
    requires IsDigit(sec[at]) && sec[at] != '0'
    ensures NegativeSeconds(sec)
  {
    assert SkipBlanks(sec) == sec;
    var u := sec[1..];
    if at == 1 {
      assert LeadingDigits(u)[0] == u[0];
      assert MantissaDigits(u)[0] == u[0];
    } else {
      assert LeadingDigits(u) == [];
      assert LeadingDigits(u[1..])[0] == sec[2];
      assert MantissaDigits(u)[0] == sec[2];
    }
  }

  /** A number without a minus sign, or a minus sign followed by neither a digit nor '.', never reads as negative. */
  lemma NoMinusDigitIsNotNegative(sec: string)
    requires sec == [] || (!IsFloatBlank(sec[0]) && (sec[0] != '-' || (|sec| > 1 && !IsDigit(sec[1]) && sec[1] != '.')))
    ensures !NegativeSeconds(sec)
  {
    if sec != [] && sec[0] == '-' {
      assert SkipBlanks(sec) == sec;
      assert LeadingDigits(sec[1..]) == [];
      assert MantissaDigits(sec[1..]) == [];
    }
  }

  /** How `to_f` reads a few `sec` values: below zero or not. */
  lemma SecondsExamples()
    ensures NegativeSeconds("-1") && NegativeSeconds(" -2.5") && NegativeSeconds("-.5s")
    ensures !NegativeSeconds("- 1") && !NegativeSeconds("2")
  {
    assert NegativeSeconds("-1") by {
      MinusNonzeroIsNegative("-1", 1);
    }
    assert NegativeSeconds(" -2.5") by {
      MinusNonzeroIsNegative("-2.5", 1);
      BlankSkipped(" -2.5");
      assert " -2.5"[1..] == "-2.5";
    }
    assert NegativeSeconds("-.5s") by {
      MinusNonzeroIsNegative("-.5s", 2);
    }
    assert !NegativeSeconds("- 1") by {
      NoMinusDigitIsNotNegative("- 1");
    }
    assert !NegativeSeconds("2") by {
      NoMinusDigitIsNotNegative("2");
    }
  }

  /** `sleep` raises for a `sec` of `-1`, and returns for a `sec` of `2` or without one. */
  lemma SleepRaisesOnNegative(el: Node, env: Env)
    ensures "sec" in el.attrs && el.attrs["sec"] == "-1" ==> Sleep(el, env).Raised?
    ensures "sec" in el.attrs && el.attrs["sec"] == "2" ==> Sleep(el, env) == Returned(env, [])
    ensures "sec" !in el.attrs ==> Sleep(el, env) == Returned(env, [])
  {
    if "sec" in el.attrs {
      var sec := el.attrs["sec"];
      if sec == "-1" {
        assert NegativeSeconds(sec) by {
          SecondsExamples();
        }
      } else if sec == "2" {
        assert !NegativeSeconds(sec) && !OutOfTimeRange(sec) by {
          SecondsExamples();
          ShortSecondsInRange(sec);
        }
      }
    }
  }

  /** An integer part of twenty or more digits, not starting with zero, is out of range. */
  lemma LongSecondsOutOfRange(sec: string)
    requires sec != [] && '1' <= sec[0] <= '9' && |LeadingDigits(sec)| >= 20
    ensures OutOfTimeRange(sec)
  {
    var d := LeadingDigits(sec);
    assert d[0] == sec[0];
    ManyDigitsLarge(d);
    IntegerPartRead(sec);
  }

  /** An integer part of at most eighteen digits is in range. */
  lemma ShortSecondsInRange(sec: string)
    requires sec != [] && IsDigit(sec[0]) && |LeadingDigits(sec)| <= 18
    ensures !OutOfTimeRange(sec)
  {
    FewDigitsSmall(LeadingDigits(sec));
    IntegerPartRead(sec);
  }

  lemma ManyDigitsLarge(d: string)
    requires AllDigits(d) && |d| >= 20 && d[0] != '0'
    ensures DigitsValue(d) >= TimeRangeLimit
  {
    DigitsValueAtLeast(d);
    Pow10Grows(19, |d| - 1);
    TimeRangeDigits();
  }

  lemma FewDigitsSmall(d: string)
    requires AllDigits(d) && |d| <= 18
    ensures DigitsValue(d) < TimeRangeLimit
  {
    DigitsValueBelow(d);
    Pow10Grows(|d|, 18);
    TimeRangeDigits();
  }

  /** A `sec` starting with a digit is read from its first character. */
  lemma IntegerPartRead(sec: string)
    requires sec != [] && IsDigit(sec[0])
    ensures OutOfTimeRange(sec) <==> DigitsValue(LeadingDigits(sec)) >= TimeRangeLimit
  {
    assert SkipBlanks(sec) == sec;
  }

  /** The limit has nineteen digits: at least ten to the 18th and below ten to the 19th. */
  lemma TimeRangeDigits()
    ensures Pow10(18) < TimeRangeLimit <= Pow10(19)
  {
    var p6 := Pow10(6);
    assert p6 == 1_000_000 by {
      assert Pow10(3) == 1000;
    }
    assert Pow10(18) == p6 * p6 * p6 by {
      Pow10Add(6, 6);
      Pow10Add(12, 6);
    }
  }

  lemma {:induction false} Pow10Add(m: nat, n: nat)
    ensures Pow10(m + n) == Pow10(m) * Pow10(n)
  {
    if n > 0 {
      Pow10Add(m, n - 1);
      assert Pow10(m + n) == 10 * Pow10(m + n - 1);
    }
  }

  lemma {:induction false} Pow10Grows(m: nat, n: nat)
    requires m <= n
    ensures Pow10(m) <= Pow10(n)
  {
    if m < n {
      Pow10Grows(m, n - 1);
    }
  }

  /**
   * `sleep` on a `sec` that starts with a digit: it raises when the integer
   * part has twenty or more digits and does not start with zero, and
   * returns the environment unchanged with no lines when it has at most
   * eighteen.
   */
  lemma SleepRangeByDigits(el: Node, env: Env)
    requires "sec" in el.attrs && el.attrs["sec"] != [] && IsDigit(el.attrs["sec"][0])
    ensures var sec := el.attrs["sec"];
      && (sec[0] != '0' && |LeadingDigits(sec)| >= 20 ==> Sleep(el, env) == Raised("out of Time range"))
      && (|LeadingDigits(sec)| <= 18 ==> Sleep(el, env) == Returned(env, []))
  {
    var sec := el.attrs["sec"];
    NoMinusDigitIsNotNegative(sec);
    if sec[0] != '0' && |LeadingDigits(sec)| >= 20 {
      LongSecondsOutOfRange(sec);
    }
    if |LeadingDigits(sec)| <= 18 {
      ShortSecondsInRange(sec);
    }
  }

  /** `DEFAULT_PLUGINS`. */
  function DefaultPlugins(): (reg: Registry)
    ensures reg.Keys == {"echo", "sleep"}
  {
    map["echo" := Echo, "sleep" := Sleep]
  }

  /**
   * `add_plugins` merges new handlers into the registry. After it, an
   * element with a registered tag that the engine does not handle itself
   * is passed to the new handler: a returned environment becomes the
   * scope's and the returned lines are written; a raise fails the element
   * with the tag and the message, and an exception outside `StandardError`
   * leaves the walk as `Uncaught`.
   */
  lemma AddedPluginHandles(ctx: Ctx, extra: Registry, c: Node, env: Env, opts: Opts, s: Store)
    requires !IsBuiltinTag(c.tag) && c.tag in extra
    ensures var h := extra[c.tag](c, env);
      var r := Dispatch(ctx.(plugins := Merge(ctx.plugins, extra)), c, env, opts, s);
      && (h.Returned? ==> r == Ok(h.env, opts, s, PluginLines(h.lines)))
      && (h.Raised? ==> r == Err(PluginRaised(c.tag, h.message), s, []))
      && (h.Escaped? ==> r == Err(Uncaught(h.message), s, []))
  {
  }

  /**
   * A plugin registered under a built-in leaf tag is never called: the
   * engine handles `chdir`, `env`, `eval` and `shell` elements itself.
   */
  lemma BuiltinTagShadowsPlugin(ctx: Ctx, c: Node, p: Plugin, env: Env, opts: Opts, s: Store)
    requires IsBuiltinTag(c.tag) && !IsContainerTag(c.tag)
    ensures Dispatch(ctx.(plugins := ctx.plugins[c.tag := p]), c, env, opts, s) == Dispatch(ctx, c, env, opts, s)
  {
  }

  /** Dispatching an `echo` element with the default plugins writes its stripped text and keeps the scope. */
  lemma EchoDispatch(ctx: Ctx, c: Node, env: Env, opts: Opts, s: Store)
    requires ctx.plugins == DefaultPlugins()
    requires c.tag == "echo" && c.text.Some?
    ensures var r := Dispatch(ctx, c, env, opts, s);
      r.Ok? && r.env == env && r.opts == opts && r.store == s && r.trace == [PluginLine(Strip(c.text.value))]
  {
  }
}
