/**
 * `DomainRegistry`: the class-level dictionaries `domain_type -> config` and
 * `domain_type -> evaluator class`, as one object whose methods update them.
 */
module Registry {
  import opened Wrappers
  import opened Text
  import opened Knowledge
  import Evaluation

  /** An evaluator class: instantiating it with a configuration gives an evaluator. */
  type EvaluatorClass = Evaluation.Strategy

  /** The registry's contents; `order` is the key order of the domain dictionary. */
  datatype Contents = Contents(
    domains: map<string, DomainConfig>,
    evaluators: map<string, EvaluatorClass>,
    order: seq<string>)

  /** The keys in insertion order, each once. */
  ghost predicate Ordered(c: Contents) {
    (forall i, j | 0 <= i < j < |c.order| :: c.order[i] != c.order[j])
    && (forall k :: k in c.domains <==> k in c.order)
  }

  const Empty := Contents(map[], map[], [])

  /** `register_domain`: the config replaces any earlier one; the evaluator map is written only when a class is given. */
  function Register(c: Contents, config: DomainConfig, evaluator: Option<EvaluatorClass>): Contents {
    var key := config.domainType;
    Contents(
      c.domains[key := config],
      if evaluator.Some? then c.evaluators[key := evaluator.value] else c.evaluators,
      if key in c.domains then c.order else c.order + [key])
  }

  /** `get_domain`. */
  function Domain(c: Contents, domainType: string): Option<DomainConfig> {
    if domainType in c.domains then Some(c.domains[domainType]) else None
  }

  /** `get_evaluator`. */
  function EvaluatorOf(c: Contents, domainType: string): Option<EvaluatorClass> {
    if domainType in c.evaluators then Some(c.evaluators[domainType]) else None
  }

  /** Only `.yaml` and `.yml` files are read. */
  predicate IsConfigFile(name: string) {
    EndsWith(name, ".yaml") || EndsWith(name, ".yml")
  }

  /**
   * `load_from_directory` over a listing: every configuration file that
   * parses is registered without an evaluator; a failure is skipped.
   */
  function LoadAll(c: Contents, files: seq<string>, parse: string -> Option<DomainConfig>): Contents
    decreases |files|
  {
    if files == [] then c
    else
      LoadOne(LoadAll(c, files[..|files| - 1], parse), files[|files| - 1], parse)
  }

  /** One entry of the listing: registered when it is a configuration file that parses. */
  function LoadOne(c: Contents, name: string, parse: string -> Option<DomainConfig>): Contents {
    if IsConfigFile(name) && parse(name).Some? then Register(c, parse(name).value, None) else c
  }

  // ---------------------------------------------------------------------
  // Properties of the registry operations.

  lemma RegisterOrdered(c: Contents, config: DomainConfig, evaluator: Option<EvaluatorClass>)
    requires Ordered(c)
    ensures Ordered(Register(c, config, evaluator))
  {
  }

  /** A new type is appended to the key order. */
  lemma RegisterAppends(c: Contents, config: DomainConfig, evaluator: Option<EvaluatorClass>)
    requires Ordered(c) && config.domainType !in c.order
    ensures Ordered(Register(c, config, evaluator))
    ensures Register(c, config, evaluator).order == c.order + [config.domainType]
  {
  }

  /** Two more registrations of new, distinct types append both, in order. */
  lemma RegisterTwoMore(c: Contents, c3: DomainConfig, c4: DomainConfig)
    requires Ordered(c) && c3.domainType !in c.order && c4.domainType !in c.order
    requires c3.domainType != c4.domainType
    ensures var r := Register(Register(c, c3, None), c4, None);
      Ordered(r) && r.order == c.order + [c3.domainType, c4.domainType]
  {
    RegisterAppends(c, c3, None);
    var r3 := Register(c, c3, None);
    assert c4.domainType !in c.order + [c3.domainType];
    RegisterAppends(r3, c4, None);
    assert (c.order + [c3.domainType]) + [c4.domainType] == c.order + [c3.domainType, c4.domainType];
  }

  /** Three more registrations of new, distinct types append all three, in order. */
  lemma RegisterThreeMore(c: Contents, c2: DomainConfig, c3: DomainConfig, c4: DomainConfig)
    requires Ordered(c) && c2.domainType !in c.order && c3.domainType !in c.order && c4.domainType !in c.order
    requires c2.domainType != c3.domainType && c2.domainType != c4.domainType && c3.domainType != c4.domainType
    ensures var r := Register(Register(Register(c, c2, None), c3, None), c4, None);
      Ordered(r) && r.order == c.order + [c2.domainType, c3.domainType, c4.domainType]
  {
    RegisterAppends(c, c2, None);
    var r2 := Register(c, c2, None);
    RegisterTwoMore(r2, c3, c4);
    assert (c.order + [c2.domainType]) + [c3.domainType, c4.domainType] == c.order + [c2.domainType, c3.domainType, c4.domainType];
  }

  /** Four registrations of distinct types, starting empty: each type once, in registration order. */
  lemma RegisterFour(c1: DomainConfig, c2: DomainConfig, c3: DomainConfig, c4: DomainConfig, e1: Option<EvaluatorClass>)
    requires c1.domainType != c2.domainType && c1.domainType != c3.domainType && c1.domainType != c4.domainType
    requires c2.domainType != c3.domainType && c2.domainType != c4.domainType && c3.domainType != c4.domainType
    ensures var r := Register(Register(Register(Register(Empty, c1, e1), c2, None), c3, None), c4, None);
      Ordered(r) && r.order == [c1.domainType, c2.domainType, c3.domainType, c4.domainType]
  {
    var r1 := Register(Empty, c1, e1);
    assert Ordered(r1) && r1.order == [c1.domainType] by {
      RegisterAppends(Empty, c1, e1);
    }
    var r := Register(Register(Register(r1, c2, None), c3, None), c4, None);
    assert Ordered(r) && r.order == [c1.domainType] + [c2.domainType, c3.domainType, c4.domainType] by {
      RegisterThreeMore(r1, c2, c3, c4);
    }
  }

  /**
   * After registering, the domain is found and is the new config, every other
   * domain is unchanged, and the evaluator is the new class when one was
   * given and otherwise whatever was registered before.
   */
  lemma RegisterThenGet(c: Contents, config: DomainConfig, evaluator: Option<EvaluatorClass>, other: string)
    ensures Domain(Register(c, config, evaluator), config.domainType) == Some(config)
    ensures evaluator.Some? ==> EvaluatorOf(Register(c, config, evaluator), config.domainType) == evaluator
    ensures evaluator.None? ==> EvaluatorOf(Register(c, config, evaluator), config.domainType) == EvaluatorOf(c, config.domainType)
    ensures other != config.domainType ==>
      Domain(Register(c, config, evaluator), other) == Domain(c, other)
      && EvaluatorOf(Register(c, config, evaluator), other) == EvaluatorOf(c, other)
  {
  }

  /** Last write wins for the config; re-registering without a class keeps the old class. */
  lemma ReRegisterKeepsEvaluator(c: Contents, first: DomainConfig, ev: EvaluatorClass, second: DomainConfig)
    requires first.domainType == second.domainType
    ensures var r := Register(Register(c, first, Some(ev)), second, None);
      Domain(r, second.domainType) == Some(second)
      && EvaluatorOf(r, second.domainType) == Some(ev)
      && r.order == Register(c, first, Some(ev)).order
  {
  }

  /** A listing loads in order: each parsed configuration file is registered, and no evaluator changes. */
  lemma {:induction false} LoadAllEvaluators(c: Contents, files: seq<string>, parse: string -> Option<DomainConfig>)
    ensures LoadAll(c, files, parse).evaluators == c.evaluators
    decreases |files|
  {
    if files != [] {
      LoadAllEvaluators(c, files[..|files| - 1], parse);
    }
  }

  lemma {:induction false} LoadAllOrdered(c: Contents, files: seq<string>, parse: string -> Option<DomainConfig>)
    requires Ordered(c)
    ensures Ordered(LoadAll(c, files, parse))
    decreases |files|
  {
    if files != [] {
      LoadAllOrdered(c, files[..|files| - 1], parse);
    }
  }

  /** A loaded configuration file that parses is found afterwards unless a later file has the same type. */
  lemma {:induction false} LoadAllFinds(c: Contents, files: seq<string>, parse: string -> Option<DomainConfig>, i: nat)
    requires i < |files| && IsConfigFile(files[i]) && parse(files[i]).Some?
    requires forall j | i < j < |files| && IsConfigFile(files[j]) && parse(files[j]).Some? ::
      parse(files[j]).value.domainType != parse(files[i]).value.domainType
    ensures Domain(LoadAll(c, files, parse), parse(files[i]).value.domainType) == parse(files[i])
    decreases |files|
  {
    var prefix := files[..|files| - 1];
    if i < |files| - 1 {
      assert prefix[i] == files[i];
      forall j | i < j < |prefix| && IsConfigFile(prefix[j]) && parse(prefix[j]).Some?
        ensures parse(prefix[j]).value.domainType != parse(prefix[i]).value.domainType
      {
        assert prefix[j] == files[j];
      }
      LoadAllFinds(c, prefix, parse, i);
    }
  }

  /** A file that is not a configuration file is never read. */
  lemma {:induction false} LoadAllSkips(c: Contents, files: seq<string>, parse: string -> Option<DomainConfig>)
    requires forall i | 0 <= i < |files| :: !IsConfigFile(files[i]) || parse(files[i]).None?
    ensures LoadAll(c, files, parse) == c
    decreases |files|
  {
    if files != [] {
      LoadAllSkips(c, files[..|files| - 1], parse);
    }
  }

  // ---------------------------------------------------------------------
  // The registry object.

  class DomainRegistry {
    var domains: map<string, DomainConfig>
    var evaluators: map<string, EvaluatorClass>
    var order: seq<string>

    function State(): Contents
      reads this
    {
      Contents(domains, evaluators, order)
    }

    ghost predicate Valid()
      reads this
    {
      Ordered(State())
    }

    constructor ()
      ensures Valid() && State() == Empty
    {
      domains := map[];
      evaluators := map[];
      order := [];
    }

    method RegisterDomain(config: DomainConfig, evaluator: Option<EvaluatorClass>)
      requires Valid()
      modifies this
      ensures Valid()
      ensures State() == Register(old(State()), config, evaluator)
    {
      if config.domainType !in domains {
        order := order + [config.domainType];
      }
      domains := domains[config.domainType := config];
      if evaluator.Some? {
        evaluators := evaluators[config.domainType := evaluator.value];
      }
    }

    /** `get_domain`: None for an unknown type. */
    method GetDomain(domainType: string) returns (r: Option<DomainConfig>)
      ensures r == Domain(State(), domainType)
      ensures r.Some? <==> domainType in domains
      ensures r.Some? ==> r.value == domains[domainType] && r.value in domains.Values
    {
      if domainType in domains {
        r := Some(domains[domainType]);
      } else {
        r := None;
      }
    }

    /** `get_evaluator`: None for an unknown type or one registered without a class. */
    method GetEvaluator(domainType: string) returns (r: Option<EvaluatorClass>)
      ensures r == EvaluatorOf(State(), domainType)
      ensures r.Some? <==> domainType in evaluators
    {
      if domainType in evaluators {
        r := Some(evaluators[domainType]);
      } else {
        r := None;
      }
    }

    /** `list_domains`: each registered type once, in registration order. */
    method ListDomains() returns (r: seq<string>)
      requires Valid()
      ensures forall k :: k in r <==> k in domains
      ensures forall i, j | 0 <= i < j < |r| :: r[i] != r[j]
      ensures r == order
    {
      r := order;
    }

    method Clear()
      modifies this
      ensures Valid() && State() == Empty
    {
      domains := map[];
      evaluators := map[];
      order := [];
    }

    /** The body of the directory scan for one file name. */
    method LoadFile(name: string, parse: string -> Option<DomainConfig>)
      requires Valid()
      modifies this
      ensures Valid()
      ensures State() == LoadOne(old(State()), name, parse)
    {
      if IsConfigFile(name) {
        var parsed := parse(name);
        if parsed.Some? {
          RegisterDomain(parsed.value, None);
        }
      }
    }

    /**
     * `load_from_directory`: nothing happens when the directory does not
     * exist (`listing` is None); otherwise the listing is scanned in order.
     */
    method LoadFromDirectory(listing: Option<seq<string>>, parse: string -> Option<DomainConfig>)
      requires Valid()
      modifies this
      ensures Valid()
      ensures listing.None? ==> State() == old(State())
      ensures listing.Some? ==> State() == LoadAll(old(State()), listing.value, parse)
    {
      if listing.None? {
        return;
      }
      var files := listing.value;
      var i := 0;
      while i < |files|
        invariant 0 <= i <= |files|
        invariant Valid()
        invariant State() == LoadAll(old(State()), files[..i], parse)
      {
        assert files[..i + 1][..i] == files[..i];
        LoadFile(files[i], parse);
        i := i + 1;
      }
      assert files[..i] == files;
    }
  }
}
