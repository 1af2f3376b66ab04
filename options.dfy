/**
 * The functional options of the second client generation (option.go):
 * each option is a closure from one configuration value to another that
 * replaces a single field, and a constructor folds its options over a
 * base configuration from left to right.
 */
module Options {
  import opened Mail

  /**
   * The configuration the options act on. The verbose field is the one the
   * constructors read and write besides the declared ones; simulate is
   * declared but no option or constructor of this generation touches it.
   */
  datatype Config = Config(
    endpoint: string, overrideAddress: string, defaultSender: Address, simulate: bool, verbose: bool)

  type Option = Config -> Config

  /** Endpoint(base): sets the endpoint, which may be empty, and nothing else. */
  function Endpoint(base: string): (o: Option)
    ensures forall c :: o(c).endpoint == base && o(c).(endpoint := c.endpoint) == c
  {
    (c: Config) => c.(endpoint := base)
  }

  /** DefaultSender(sender): sets the default sender and nothing else. */
  function DefaultSender(sender: Address): (o: Option)
    ensures forall c :: o(c).defaultSender == sender && o(c).(defaultSender := c.defaultSender) == c
  {
    (c: Config) => c.(defaultSender := sender)
  }

  /** OverrideAddress(address): sets the override address and nothing else. */
  function OverrideAddress(address: string): (o: Option)
    ensures forall c :: o(c).overrideAddress == address && o(c).(overrideAddress := c.overrideAddress) == c
  {
    (c: Config) => c.(overrideAddress := address)
  }

  /**
   * The options applied to c in order, the first one first; so the last
   * option is applied last, to what all the others built.
   */
  function Apply(c: Config, opts: seq<Option>): (r: Config)
    ensures opts == [] ==> r == c
    ensures |opts| > 0 ==> r == opts[|opts| - 1](Apply(c, opts[..|opts| - 1]))
    decreases |opts|
  {
    if opts == [] then c
    else
      var r := Apply(opts[0](c), opts[1..]);
      assert |opts| > 1 ==> opts[..|opts| - 1][1..] == opts[1..][..|opts| - 2];
      r
  }

  /** Folding a concatenation is folding its two halves one after the other. */
  lemma {:induction false} ApplyAppend(c: Config, xs: seq<Option>, ys: seq<Option>)
    ensures Apply(c, xs + ys) == Apply(Apply(c, xs), ys)
    decreases |xs|
  {
    if xs == [] {
      assert xs + ys == ys;
    } else {
      assert (xs + ys)[1..] == xs[1..] + ys;
      ApplyAppend(xs[0](c), xs[1..], ys);
    }
  }

  /** Two options are applied first to last. */
  lemma ApplyPair(c: Config, a: Option, b: Option)
    ensures Apply(c, [a, b]) == b(a(c))
  {
    assert [a, b][1..] == [b];
    assert [b][1..] == [];
    assert Apply(c, [a, b]) == Apply(a(c), [b]);
    assert Apply(a(c), [b]) == Apply(b(a(c)), []);
  }

  /** Each option gives the same configuration when applied twice as once. */
  lemma OptionsIdempotent(c: Config, base: string, sender: Address, address: string)
    ensures Apply(c, [Endpoint(base), Endpoint(base)]) == Endpoint(base)(c)
    ensures Apply(c, [DefaultSender(sender), DefaultSender(sender)]) == DefaultSender(sender)(c)
    ensures Apply(c, [OverrideAddress(address), OverrideAddress(address)]) == OverrideAddress(address)(c)
  {
    ApplyPair(c, Endpoint(base), Endpoint(base));
    ApplyPair(c, DefaultSender(sender), DefaultSender(sender));
    ApplyPair(c, OverrideAddress(address), OverrideAddress(address));
  }

  /** Options that set different fields may be given in either order. */
  lemma OptionsCommute(c: Config, base: string, sender: Address, address: string)
    ensures Apply(c, [Endpoint(base), DefaultSender(sender)]) == Apply(c, [DefaultSender(sender), Endpoint(base)])
    ensures Apply(c, [Endpoint(base), OverrideAddress(address)]) == Apply(c, [OverrideAddress(address), Endpoint(base)])
    ensures Apply(c, [DefaultSender(sender), OverrideAddress(address)])
         == Apply(c, [OverrideAddress(address), DefaultSender(sender)])
  {
    ApplyPair(c, Endpoint(base), DefaultSender(sender));
    ApplyPair(c, DefaultSender(sender), Endpoint(base));
    ApplyPair(c, Endpoint(base), OverrideAddress(address));
    ApplyPair(c, OverrideAddress(address), Endpoint(base));
    ApplyPair(c, DefaultSender(sender), OverrideAddress(address));
    ApplyPair(c, OverrideAddress(address), DefaultSender(sender));
  }

  /** The three fields an option can set. */
  datatype Field = EndpointField | OverrideField | SenderField

  predicate SameField(c: Config, d: Config, f: Field) {
    match f
    case EndpointField => c.endpoint == d.endpoint
    case OverrideField => c.overrideAddress == d.overrideAddress
    case SenderField => c.defaultSender == d.defaultSender
  }

  /** o never changes field f. */
  ghost predicate Keeps(o: Option, f: Field) {
    forall c :: SameField(o(c), c, f)
  }

  /** Each option keeps the two fields it is not about. */
  lemma OptionsKeepOtherFields(base: string, sender: Address, address: string)
    ensures Keeps(Endpoint(base), OverrideField) && Keeps(Endpoint(base), SenderField)
    ensures Keeps(DefaultSender(sender), EndpointField) && Keeps(DefaultSender(sender), OverrideField)
    ensures Keeps(OverrideAddress(address), EndpointField) && Keeps(OverrideAddress(address), SenderField)
  {
  }

  /** A fold over options that all keep field f leaves f as it was. */
  lemma {:induction false} ApplyKeeps(c: Config, opts: seq<Option>, f: Field)
    requires forall k :: 0 <= k < |opts| ==> Keeps(opts[k], f)
    ensures SameField(Apply(c, opts), c, f)
    decreases |opts|
  {
    if opts != [] {
      assert Keeps(opts[0], f);
      assert SameField(opts[0](c), c, f);
      ApplyKeeps(opts[0](c), opts[1..], f);
    }
  }

  /**
   * Last writer wins: when no later option touches field f, the field is
   * what option o, applied in its place in the fold, made it.
   */
  lemma LastWriterWins(c: Config, before: seq<Option>, o: Option, after: seq<Option>, f: Field)
    requires forall k :: 0 <= k < |after| ==> Keeps(after[k], f)
    ensures SameField(Apply(c, before + [o] + after), o(Apply(c, before)), f)
  {
    ApplyAppend(c, before + [o], after);
    assert (before + [o])[..|before|] == before;
    ApplyKeeps(o(Apply(c, before)), after, f);
  }

  /** The last Endpoint in a list of options decides the endpoint. */
  lemma LastEndpointWins(c: Config, before: seq<Option>, base: string, after: seq<Option>)
    requires forall k :: 0 <= k < |after| ==> Keeps(after[k], EndpointField)
    ensures Apply(c, before + [Endpoint(base)] + after).endpoint == base
  {
    LastWriterWins(c, before, Endpoint(base), after, EndpointField);
  }
}
