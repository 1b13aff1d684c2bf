/** Names of expert weights and of shard files, and that different things get different names. */
module TensorNames {

  import opened MoeChunks

  predicate IsDigit(c: char) { '0' <= c <= '9' }

  predicate AllDigits(s: string) { forall i :: 0 <= i < |s| ==> IsDigit(s[i]) }

  function Digit(d: nat): (c: char)
    requires d < 10
    ensures IsDigit(c)
    ensures c == '0' <==> d == 0
  {
    '0' + d as char
  }

  /** Decimal digits. */
  function Dec(n: nat): (s: string)
    ensures s != [] && AllDigits(s)
    ensures s[0] == '0' <==> n == 0
    ensures n == 0 ==> s == ['0']
  {
    if n < 10 then [Digit(n)] else Dec(n / 10) + [Digit(n % 10)]
  }

  /** The number a digit string stands for. */
  function Value(s: string): nat {
    if s == [] then 0 else 10 * Value(s[..|s| - 1]) + if IsDigit(s[|s| - 1]) then (s[|s| - 1] - '0') as nat else 0
  }

  lemma {:induction false} DecRoundTrip(n: nat)
    ensures Value(Dec(n)) == n
  {
    if n < 10 {
      assert Dec(n)[..0] == [] && Value([]) == 0;
    } else {
      DecRoundTrip(n / 10);
      assert Dec(n)[..|Dec(n)| - 1] == Dec(n / 10);
    }
  }

  function Zeros(n: nat): (s: string)
    ensures |s| == n && AllDigits(s)
  {
    if n == 0 then [] else Zeros(n - 1) + ['0']
  }

  /** Digits padded with zeros to a least width, as `{n:05d}` does for five. */
  function Pad(n: nat, width: nat): (s: string)
    ensures AllDigits(s)
  {
    if |Dec(n)| < width then Zeros(width - |Dec(n)|) + Dec(n) else Dec(n)
  }

  lemma {:induction false} LeadingZeros(k: nat, s: string)
    ensures Value(Zeros(k) + s) == Value(s)
    decreases k + |s|
  {
    var t := Zeros(k) + s;
    if s == [] {
      if k > 0 {
        assert t == Zeros(k) && t[..|t| - 1] == Zeros(k - 1) && Zeros(k - 1) + [] == Zeros(k - 1);
        LeadingZeros(k - 1, []);
      }
    } else {
      assert t[..|t| - 1] == Zeros(k) + s[..|s| - 1];
      LeadingZeros(k, s[..|s| - 1]);
    }
  }

  lemma PadIsInjective(a: nat, b: nat, width: nat)
    requires Pad(a, width) == Pad(b, width)
    ensures a == b
  {
    DecRoundTrip(a);
    DecRoundTrip(b);
    LeadingZeros(if |Dec(a)| < width then width - |Dec(a)| else 0, Dec(a));
    LeadingZeros(if |Dec(b)| < width then width - |Dec(b)| else 0, Dec(b));
    assert Zeros(0) + Dec(a) == Dec(a) && Zeros(0) + Dec(b) == Dec(b);
  }

  function ShardName(i: nat, n: nat): string {
    "model-" + (Pad(i, 5) + ("-of-" + Pad(n, 5) + ".safetensors"))
  }

  /** Padding adds zeros in front until there are `width` digits, and keeps the number. */
  lemma PaddedDigits(n: nat, width: nat)
    ensures Value(Pad(n, width)) == n && |Pad(n, width)| >= width && |Pad(n, width)| >= |Dec(n)|
    ensures |Pad(n, width)| > width ==> Pad(n, width) == Dec(n)
  {
    DecRoundTrip(n);
    LeadingZeros(if |Dec(n)| < width then width - |Dec(n)| else 0, Dec(n));
    assert Zeros(0) + Dec(n) == Dec(n);
  }

  /** Shard and total, with at least five digits each. */
  lemma ShardNameInFull(i: nat, n: nat) returns (a: string, b: string)
    ensures ShardName(i, n) == "model-" + a + "-of-" + b + ".safetensors"
    ensures AllDigits(a) && |a| >= 5 && (|a| > 5 ==> a == Dec(i)) && Value(a) == i
    ensures AllDigits(b) && |b| >= 5 && (|b| > 5 ==> b == Dec(n)) && Value(b) == n
  {
    a, b := Pad(i, 5), Pad(n, 5);
    PaddedDigits(i, 5);
    PaddedDigits(n, 5);
    hide Pad, Value;
    var rest := "-of-" + b + ".safetensors";
    assert "-of-" + (b + ".safetensors") == rest;
    assert "model-" + (a + rest) == "model-" + a + "-of-" + b + ".safetensors";
  }

  /** Shards of one output get different file names, with any number of digits. */
  lemma ShardNamesDiffer(i: nat, j: nat, n: nat)
    requires ShardName(i, n) == ShardName(j, n)
    ensures i == j
  {
    var rest := "-of-" + Pad(n, 5) + ".safetensors";
    SamePrefix("model-", Pad(i, 5) + rest, Pad(j, 5) + rest);
    SameSuffix(Pad(i, 5), Pad(j, 5), rest);
    PadIsInjective(i, j, 5);
  }

  lemma SameSuffix(a: string, b: string, rest: string)
    requires a + rest == b + rest
    ensures a == b
  {
    assert |a + rest| == |a| + |rest| && |b + rest| == |b| + |rest|;
    assert a == (a + rest)[..|a|] && b == (b + rest)[..|b|];
  }

  lemma SamePrefix(p: string, a: string, b: string)
    requires p + a == p + b
    ensures a == b
  {
    assert a == (p + a)[|p|..] && b == (p + b)[|p|..];
  }

  // ---------------------------------------------------------------- expert weights

  function ProjectionName(p: Projection): string {
    match p case Gate => "gate_proj" case Up => "up_proj" case Down => "down_proj"
  }

  function AfterPrefix(layer: nat, expert: nat, p: Projection): string {
    "model.layers." + (Dec(layer) + "." + ("mlp.experts." + (Dec(expert) + "." + (ProjectionName(p) + ".weight"))))
  }

  /** `{prefix}model.layers.{layer}.mlp.experts.{expert}.{projection}.weight` */
  function ExpertWeightName(prefix: string, layer: nat, expert: nat, p: Projection): string {
    prefix + AfterPrefix(layer, expert, p)
  }

  function LeadingDigits(s: string): nat {
    if s == [] || !IsDigit(s[0]) then 0 else 1 + LeadingDigits(s[1..])
  }

  lemma {:induction false} LeadingOfDigits(a: string, x: string)
    requires AllDigits(a)
    ensures LeadingDigits(a + "." + x) == |a|
  {
    if a == [] {
      assert (a + "." + x)[0] == '.';
    } else {
      assert (a + "." + x)[1..] == a[1..] + "." + x;
      LeadingOfDigits(a[1..], x);
    }
  }

  /** Digits up to the first dot are determined by the whole. */
  lemma DigitsThenDot(a: string, x: string, b: string, y: string)
    requires AllDigits(a) && AllDigits(b) && a + "." + x == b + "." + y
    ensures a == b && x == y
  {
    var s, t := a + "." + x, b + "." + y;
    LeadingOfDigits(a, x);
    LeadingOfDigits(b, y);
    assert a == s[..|a|] && b == t[..|b|] && x == s[|a| + 1..] && y == t[|b| + 1..];
  }

  /** Under one prefix, a name determines layer, expert and projection. */
  lemma ExpertNamesDiffer(prefix: string, l: nat, e: nat, p: Projection, l': nat, e': nat, p': Projection)
    requires ExpertWeightName(prefix, l, e, p) == ExpertWeightName(prefix, l', e', p')
    ensures l == l' && e == e' && p == p'
  {
    SamePrefix(prefix, AfterPrefix(l, e, p), AfterPrefix(l', e', p'));
    var x, x' := Dec(e) + "." + (ProjectionName(p) + ".weight"), Dec(e') + "." + (ProjectionName(p') + ".weight");
    SamePrefix("model.layers.", Dec(l) + "." + ("mlp.experts." + x), Dec(l') + "." + ("mlp.experts." + x'));
    DigitsThenDot(Dec(l), "mlp.experts." + x, Dec(l'), "mlp.experts." + x');
    SamePrefix("mlp.experts.", x, x');
    DigitsThenDot(Dec(e), ProjectionName(p) + ".weight", Dec(e'), ProjectionName(p') + ".weight");
    assert (ProjectionName(p) + ".weight")[0] == ProjectionName(p)[0];
    assert (ProjectionName(p') + ".weight")[0] == ProjectionName(p')[0];
    DecRoundTrip(l);
    DecRoundTrip(l');
    DecRoundTrip(e);
    DecRoundTrip(e');
  }

  const LANGUAGE_PREFIX := "language_model."

  /** The two prefixes in use never give the same name. */
  lemma PrefixesDiffer(l: nat, e: nat, p: Projection, l': nat, e': nat, p': Projection)
    ensures ExpertWeightName("", l, e, p) != ExpertWeightName(LANGUAGE_PREFIX, l', e', p')
  {
    assert ExpertWeightName("", l, e, p)[0] == 'm';
    assert ExpertWeightName(LANGUAGE_PREFIX, l', e', p')[0] == 'l';
  }
}
