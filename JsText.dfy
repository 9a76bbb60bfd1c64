/**
 * JavaScript value behaviour the deploy script relies on: possibly-undefined
 * strings, truthiness, template-literal interpolation, `Array.prototype.join`,
 * `String.prototype.split` with a one-character separator, and the decimal
 * rendering of a number inside a template literal.
 */
module JsText {

  datatype Option<+T> = None | Some(value: T)

  /** An environment variable or argument that may be undefined. */
  type MaybeString = Option<string>

  /** JavaScript truthiness of a possibly-undefined string: `undefined` and `""` are falsy. */
  predicate Truthy(s: MaybeString) {
    s.Some? && s.value != ""
  }

  /** The value of `s || fallback`. */
  function OrElse(s: MaybeString, fallback: string): string {
    if Truthy(s) then s.value else fallback
  }

  /** What `${s}` prints inside a template literal: `undefined` prints as the word. */
  function Show(s: MaybeString): string {
    match s
    case None => "undefined"
    case Some(v) => v
  }

  /** `xs.join(sep)`. */
  function Join(sep: string, xs: seq<string>): string
    decreases |xs|
  {
    if |xs| == 0 then ""
    else if |xs| == 1 then xs[0]
    else xs[0] + sep + Join(sep, xs[1..])
  }

  /** `s.split(sep)` for a one-character separator: always at least one piece. */
  function Split(s: string, sep: char): (pieces: seq<string>)
    ensures |pieces| >= 1
    decreases |s|
  {
    if |s| == 0 then [""]
    else
      var rest := Split(s[1..], sep);
      if s[0] == sep then [""] + rest
      else [[s[0]] + rest[0]] + rest[1..]
  }

  /** A string without the separator splits into itself alone. */
  lemma {:induction false} SplitNoSeparator(s: string, sep: char)
    requires sep !in s
    ensures Split(s, sep) == [s]
    decreases |s|
  {
    if |s| > 0 {
      assert sep !in s[1..] by {
        forall i | 0 <= i < |s[1..]| ensures s[1..][i] != sep {
          assert s[1..][i] == s[i + 1];
        }
      }
      SplitNoSeparator(s[1..], sep);
      assert [s[0]] + s[1..] == s;
    }
  }

  /** Splitting `x + sep + y`, where `x` has no separator, yields `x` and then the pieces of `y`. */
  lemma {:induction false} SplitAtFirst(x: string, sep: char, y: string)
    requires sep !in x
    ensures Split(x + [sep] + y, sep) == [x] + Split(y, sep)
    decreases |x|
  {
    var s := x + [sep] + y;
    if |x| == 0 {
      assert s[1..] == y;
    } else {
      assert s[1..] == x[1..] + [sep] + y;
      assert sep !in x[1..] by {
        forall i | 0 <= i < |x[1..]| ensures x[1..][i] != sep {
          assert x[1..][i] == x[i + 1];
        }
      }
      SplitAtFirst(x[1..], sep, y);
      assert [x[0]] + x[1..] == x;
    }
  }

  /**
   * Round trip: splitting the join of a non-empty list of pieces, none of which
   * contains the separator, gives back exactly the pieces.
   */
  lemma {:induction false} SplitJoin(xs: seq<string>, sep: char)
    requires |xs| >= 1
    requires forall i :: 0 <= i < |xs| ==> sep !in xs[i]
    ensures Split(Join([sep], xs), sep) == xs
    decreases |xs|
  {
    if |xs| == 1 {
      SplitNoSeparator(xs[0], sep);
    } else {
      SplitJoin(xs[1..], sep);
      SplitAtFirst(xs[0], sep, Join([sep], xs[1..]));
      assert [xs[0]] + xs[1..] == xs;
    }
  }

  /**
   * The first piece of a split is the text before the first separator: a
   * prefix without the separator, followed in `s` by the separator unless it
   * is all of `s`.
   */
  lemma {:induction false} SplitFirstPiece(s: string, sep: char)
    ensures var p := Split(s, sep)[0];
      sep !in p && |p| <= |s| && s[..|p|] == p && (|p| < |s| ==> s[|p|] == sep)
    decreases |s|
  {
    if |s| > 0 && s[0] != sep {
      SplitFirstPiece(s[1..], sep);
      var q := Split(s[1..], sep)[0];
      assert Split(s, sep)[0] == [s[0]] + q;
      assert s[..|q| + 1] == [s[0]] + s[1..][..|q|];
    }
  }

  /**
   * When `x` ends with the separator, the pieces of `x + y` end with the
   * pieces of `y`.
   */
  lemma {:induction false} SplitAfterTerminated(x: string, sep: char, y: string)
    requires |x| > 0 && x[|x| - 1] == sep
    ensures var whole := Split(x + y, sep);
      var tail := Split(y, sep);
      |whole| > |tail| && whole[|whole| - |tail|..] == tail
    decreases |x|
  {
    var s := x + y;
    var tail := Split(y, sep);
    var rest := Split(s[1..], sep);
    if |x| == 1 {
      assert s[1..] == y;
      assert Split(s, sep) == [""] + rest;
    } else {
      assert s[1..] == x[1..] + y;
      SplitAfterTerminated(x[1..], sep, y);
      assert rest[|rest| - |tail|..] == tail;
      if s[0] == sep {
        assert Split(s, sep) == [""] + rest;
      } else {
        var whole := [[s[0]] + rest[0]] + rest[1..];
        assert Split(s, sep) == whole;
        assert whole[|whole| - |tail|..] == rest[1..][|rest| - 1 - |tail|..];
      }
    }
  }

  /** Joining `xs + [last]` puts one separator between the join of `xs` and `last`. */
  lemma {:induction false} JoinSnoc(sep: string, xs: seq<string>, last: string)
    requires |xs| >= 1
    ensures Join(sep, xs + [last]) == Join(sep, xs) + sep + last
    decreases |xs|
  {
    if |xs| == 1 {
      assert (xs + [last])[1..] == [last];
    } else {
      assert (xs + [last])[1..] == xs[1..] + [last];
      JoinSnoc(sep, xs[1..], last);
    }
  }

  /** The decimal digit for `d`. */
  function DigitChar(d: nat): char
    requires d < 10
  {
    ['0', '1', '2', '3', '4', '5', '6', '7', '8', '9'][d]
  }

  /** Decimal rendering of a non-negative integer, as `${n}` prints it. */
  function Decimal(n: nat): (r: string)
    ensures |r| >= 1
    ensures forall i :: 0 <= i < |r| ==> '0' <= r[i] <= '9'
    ensures (n == 0) == (r == "0")
    decreases n
  {
    if n < 10 then [DigitChar(n)] else Decimal(n / 10) + [DigitChar(n % 10)]
  }

  /** The value of the decimal digit string `s`. */
  function DigitsValue(s: string): nat
    requires forall i :: 0 <= i < |s| ==> '0' <= s[i] <= '9'
    decreases |s|
  {
    if |s| == 0 then 0 else 10 * DigitsValue(s[..|s| - 1]) + (s[|s| - 1] as int - '0' as int)
  }

  /** Reading back the rendering of `n` gives `n`. */
  lemma {:induction false} DecimalValue(n: nat)
    ensures DigitsValue(Decimal(n)) == n
    decreases n
  {
    if n >= 10 {
      DecimalValue(n / 10);
      var r := Decimal(n);
      assert r[..|r| - 1] == Decimal(n / 10);
    }
  }
}
