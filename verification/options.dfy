/** The functional options of the decorator (option.go): each exported
    constructor yields an option, and applying an option is a total
    `Config -> Config` update of exactly one field, guarded against
    nil or blank input. */
module Options {

  import opened Wrappers
  import opened Http
  import opened Configuration
  import Strings

  /** The four exported option constructors. */
  datatype ConfigOption =
    | WithParent(parent: Option<Transport>)
    | WithName(name: string)
    | WithMeter(meter: Option<Meter>)
    | WithAttributes(attributes: seq<KeyValue>)

  /** The closure of `WithParent`: a nil transport is ignored. */
  function ApplyParent(c: Config, parent: Option<Transport>): (r: Config)
    ensures parent.None? ==> r == c
    ensures parent.Some? ==> r.parent == parent.value
    ensures r.name == c.name && r.meter == c.meter && r.attributes == c.attributes
  {
    match parent
    case None => c
    case Some(p) => c.(parent := p)
  }

  /** The closure of `WithName`: a blank name is ignored; any other name is
      stored without its surrounding white space, so the result is valid
      whenever it changed. */
  function ApplyName(c: Config, name: string): (r: Config)
    ensures Strings.Blank(name) ==> r == c
    ensures !Strings.Blank(name) ==> r.name == Strings.TrimSpace(name) && Valid(r)
    ensures Valid(c) ==> Valid(r)
    ensures r.parent == c.parent && r.meter == c.meter && r.attributes == c.attributes
  {
    var trimmed := Strings.TrimSpace(name);
    if trimmed != "" then c.(name := trimmed) else c
  }

  /** The closure of `WithMeter`: the meter is stored unconditionally, nil included. */
  function ApplyMeter(c: Config, meter: Option<Meter>): (r: Config)
    ensures r.meter == meter
    ensures r.name == c.name && r.parent == c.parent && r.attributes == c.attributes
  {
    c.(meter := meter)
  }

  /** The closure of `WithAttributes`: the list is replaced, not extended. */
  function ApplyAttributes(c: Config, attributes: seq<KeyValue>): (r: Config)
    ensures r.attributes == attributes
    ensures r.name == c.name && r.parent == c.parent && r.meter == c.meter
  {
    c.(attributes := attributes)
  }

  /** `option.apply(cfg)`: every option keeps the configuration valid and
      leaves every field other than its own unchanged. */
  function Apply(opt: ConfigOption, c: Config): (r: Config)
    ensures Valid(c) ==> Valid(r)
    ensures !opt.WithParent? ==> r.parent == c.parent
    ensures !opt.WithName? ==> r.name == c.name
    ensures !opt.WithMeter? ==> r.meter == c.meter
    ensures !opt.WithAttributes? ==> r.attributes == c.attributes
  {
    match opt
    case WithParent(p) => ApplyParent(c, p)
    case WithName(n) => ApplyName(c, n)
    case WithMeter(m) => ApplyMeter(c, m)
    case WithAttributes(a) => ApplyAttributes(c, a)
  }

  /** The loop of `New`: options are applied left to right. No sequence of
      options makes a valid configuration invalid, and without a meter option
      the meter stays as it was. */
  function ApplyAll(c: Config, opts: seq<ConfigOption>): (r: Config)
    ensures Valid(c) ==> Valid(r)
    ensures (forall k :: 0 <= k < |opts| ==> !opts[k].WithMeter?) ==> r.meter == c.meter
    decreases |opts|
  {
    if |opts| == 0 then c else ApplyAll(Apply(opts[0], c), opts[1..])
  }

  /** Applying a concatenation of option lists applies the first list, then the second. */
  lemma {:induction false} ApplyAllAppend(c: Config, a: seq<ConfigOption>, b: seq<ConfigOption>)
    ensures ApplyAll(c, a + b) == ApplyAll(ApplyAll(c, a), b)
    decreases |a|
  {
    if |a| == 0 {
      assert a + b == b;
    } else {
      assert (a + b)[1..] == a[1..] + b;
      ApplyAllAppend(Apply(a[0], c), a[1..], b);
    }
  }

  /** Two options that target the same field. */
  predicate SameField(a: ConfigOption, b: ConfigOption) {
    || (a.WithParent? && b.WithParent?)
    || (a.WithName? && b.WithName?)
    || (a.WithMeter? && b.WithMeter?)
    || (a.WithAttributes? && b.WithAttributes?)
  }

  /** An option whose guard lets it through, so that it overwrites its field. */
  predicate Effective(o: ConfigOption) {
    match o
    case WithParent(p) => p.Some?
    case WithName(n) => !Strings.Blank(n)
    case WithMeter(_) => true
    case WithAttributes(_) => true
  }

  /** A later effective option on the same field overrides an earlier one. */
  lemma LaterOptionWins(c: Config, a: ConfigOption, b: ConfigOption)
    requires SameField(a, b) && Effective(b)
    ensures Apply(b, Apply(a, c)) == Apply(b, c)
  {
  }

  /** A guarded-out option is a no-op. */
  lemma IneffectiveOptionIsNoOp(c: Config, o: ConfigOption)
    requires !Effective(o) 
    ensures Apply(o, c) == c
  {
  }

  /** Options on different fields commute. */
  lemma DistinctFieldsCommute(c: Config, a: ConfigOption, b: ConfigOption)
    requires !SameField(a, b)
    ensures Apply(b, Apply(a, c)) == Apply(a, Apply(b, c))
  {
  }

  /** Feeding the stored name back into the name option changes nothing:
      the stored name is a fixed point of trimming. */
  lemma {:induction false} StoredNameIsFixedPoint(c: Config, name: string)
    requires Valid(c)
    ensures var r := ApplyName(c, name); ApplyName(r, r.name) == r
  {
    var r := ApplyName(c, name);
    Strings.TrimSpaceOfTrimmed(r.name);
    assert !Strings.IsSpace(r.name[0]);
  }

  /** The option-test scenario for a blank name: "   " keeps the default
      prefix "http.client". */
  lemma BlankNameExample(globalRejects: set<string>)
    ensures ApplyName(DefaultConfig(globalRejects), "   ").name == DefaultName
  {
    var s := "   ";
    assert Strings.IsSpace(s[0]) && Strings.IsSpace(s[1]) && Strings.IsSpace(s[2]);
    assert Strings.Blank(s);
  }

  /** The option-test scenario for a padded name: " name " is stored as "name". */
  lemma PaddedNameExample(globalRejects: set<string>)
    ensures ApplyName(DefaultConfig(globalRejects), " name ").name == "name"
  {
    var t := "name";
    assert !Strings.IsSpace(t[0]) && !Strings.IsSpace(t[|t| - 1]);
    Strings.TrimSpaceOfPadded(" ", t, " ");
    assert " " + t + " " == " name ";
  }
}
