/**
 Choosing one models.dev price per model among several providers: providers are visited in sorted
 order and a candidate replaces the current one by a comparison that treats prices closer than 1e-9
 as equal. That relation is not transitive; the order of the visits keeps errors from adding up.
*/
module PriceSelection {
  import opened Options
  import opened Prices

  datatype Cost = Cost(input: Option<real>, output: Option<real>, cacheRead: Option<real>)

  datatype Candidate = Candidate(provider: string, input: real, output: Option<real>, cacheRead: Option<real>)

  type Catalog = map<string, map<string, Cost>>   // provider -> model -> cost

  // ---- the order of provider names

  predicate Less(s: string, t: string) {
    t != "" && (s == "" || s[0] < t[0] || (s[0] == t[0] && Less(s[1..], t[1..])))
  }

  lemma {:induction false} LessTransitive(s: string, t: string, u: string)
    requires Less(s, t) && Less(t, u)
    ensures Less(s, u)
  {
    if s != "" && s[0] == t[0] == u[0] {
      LessTransitive(s[1..], t[1..], u[1..]);
    }
  }

  lemma {:induction false} LessTotal(s: string, t: string)
    ensures s == t || Less(s, t) || Less(t, s)
  {
    if s != "" && t != "" && s[0] == t[0] {
      LessTotal(s[1..], t[1..]);
      assert s == [s[0]] + s[1..] && t == [t[0]] + t[1..];
    }
  }

  lemma {:induction false} LessAsymmetric(s: string, t: string)
    requires Less(s, t)
    ensures !Less(t, s) && s != t
  {
    if s != "" && s[0] == t[0] {
      LessAsymmetric(s[1..], t[1..]);
    }
  }

  ghost predicate Ascending(ks: seq<string>) {
    forall i, j :: 0 <= i < j < |ks| ==> Less(ks[i], ks[j])
  }

  function Insert(ks: seq<string>, k: string): seq<string> {
    if ks == [] then [k] else if Less(k, ks[0]) then [k] + ks else [ks[0]] + Insert(ks[1..], k)
  }

  lemma {:induction false} InsertAscending(ks: seq<string>, k: string)
    requires Ascending(ks) && k !in ks
    ensures Ascending(Insert(ks, k))
    ensures forall x :: x in Insert(ks, k) <==> x in ks || x == k
  {
    if ks != [] {
      assert ks == [ks[0]] + ks[1..];
      if Less(k, ks[0]) {
        forall i | 0 <= i < |ks|
          ensures Less(k, ks[i])
        {
          if i > 0 {
            LessTransitive(k, ks[0], ks[i]);
          }
        }
      } else {
        LessTotal(k, ks[0]);
        var rest := Insert(ks[1..], k);
        InsertAscending(ks[1..], k);
        forall i | 0 <= i < |rest|
          ensures Less(ks[0], rest[i])
        {
          assert rest[i] in rest;
        }
      }
    }
  }

  /** The keys of a map in ascending order. */
  method SortedKeys(keys: set<string>) returns (ks: seq<string>)
    ensures Ascending(ks) && forall k :: k in ks <==> k in keys
  {
    ks := [];
    var todo := keys;
    while todo != {}
      invariant todo <= keys && Ascending(ks)
      invariant forall k :: k in ks <==> k in keys && k !in todo
      decreases todo
    {
      var k :| k in todo;
      InsertAscending(ks, k);
      ks := Insert(ks, k);
      todo := todo - {k};
    }
  }

  // ---- candidates

  function Build(provider: string, cost: Cost): (c: Option<Candidate>)
    ensures c.Some? ==> c.value.provider == provider && c.value.input >= 0.0 && Some(c.value.input) == cost.input
    ensures c.Some? ==> c.value.output == cost.output
    ensures c.Some? ==> c.value.cacheRead == if cost.cacheRead.Some? && cost.cacheRead.value >= 0.0 then cost.cacheRead else None
    ensures c.Some? <==>
            && cost.input.Some? && cost.input.value >= 0.0
            && (cost.output.Some? ==> cost.output.value >= 0.0 && (cost.input.value == 0.0 ==> cost.output.value == 0.0))
  {
    if cost.input.None? || cost.input.value < 0.0 then None
    else if cost.output.Some? && cost.output.value < 0.0 then None
    else if cost.input.value == 0.0 && cost.output.Some? && cost.output.value > 0.0 then None
    else
      Some(Candidate(provider, cost.input.value, cost.output,
                     if cost.cacheRead.Some? && cost.cacheRead.value >= 0.0 then cost.cacheRead else None))
  }

  predicate ShouldReplace(current: Candidate, next: Candidate) {
    if (current.input > 0.0) != (next.input > 0.0) then next.input > 0.0
    else if next.input > 0.0 && !NearlyEqual(next.input, current.input) then next.input < current.input
    else Less(next.provider, current.provider)
  }

  /** What a provider offers for a model. */
  function Offer(data: Catalog, provider: string, model: string): Option<Candidate> {
    if provider in data && model in data[provider] then Build(provider, data[provider][model]) else None
  }

  function Choose(current: Option<Candidate>, offer: Option<Candidate>): Option<Candidate> {
    if offer.None? then current
    else if current.None? || ShouldReplace(current.value, offer.value) then offer
    else current
  }

  /** The choice for `model` after the first `n` providers. */
  function Chosen(data: Catalog, ks: seq<string>, n: nat, model: string): Option<Candidate>
    requires n <= |ks|
  {
    if n == 0 then None else Choose(Chosen(data, ks, n - 1, model), Offer(data, ks[n - 1], model))
  }

  // ---- what the choice guarantees

  ghost predicate Offers(data: Catalog, provider: string, model: string) {
    Offer(data, provider, model).Some?
  }

  /** `c` is right against the offer of `provider`: a positive price beats zero; among positive prices
      it is below the offer plus 1e-9, and strictly below when the provider was visited before. */
  ghost predicate Beats(data: Catalog, model: string, c: Candidate, provider: string) {
    Offers(data, provider, model) ==>
      var input := Offer(data, provider, model).value.input;
      && (c.input == 0.0 ==> input == 0.0 && !Less(provider, c.provider))
      && (c.input > 0.0 && input > 0.0 ==> c.input < input + EPSILON && (Less(provider, c.provider) ==> c.input < input))
  }

  ghost predicate BestOf(data: Catalog, ks: seq<string>, n: nat, model: string, c: Candidate)
    requires n <= |ks|
  {
    && Offer(data, c.provider, model) == Some(c) && c.input >= 0.0
    && (exists i :: 0 <= i < n && ks[i] == c.provider)
    && (forall i :: 0 <= i < n ==> Beats(data, model, c, ks[i]))
  }

  lemma {:induction false} ChosenIsBest(data: Catalog, ks: seq<string>, n: nat, model: string)
    requires Ascending(ks) && n <= |ks|
    ensures Chosen(data, ks, n, model).Some? <==> exists i :: 0 <= i < n && Offers(data, ks[i], model)
    ensures Chosen(data, ks, n, model).Some? ==> BestOf(data, ks, n, model, Chosen(data, ks, n, model).value)
  {
    if n > 0 {
      ChosenIsBest(data, ks, n - 1, model);
      var current, offer := Chosen(data, ks, n - 1, model), Offer(data, ks[n - 1], model);
      if offer.Some? {
        if current.None? {
          FirstIsBest(data, ks, n, model);
        } else {
          var i :| 0 <= i < n - 1 && ks[i] == current.value.provider;
          LessAsymmetric(ks[i], ks[n - 1]);
          if ShouldReplace(current.value, offer.value) {
            ReplacementIsBest(data, ks, n, model, current.value);
          } else {
            StayingIsBest(data, ks, n, model, current.value);
          }
        }
      }
    }
  }

  lemma NotLess(s: string)
    ensures !Less(s, s)
  {
    if Less(s, s) {
      LessAsymmetric(s, s);
    }
  }

  lemma FirstIsBest(data: Catalog, ks: seq<string>, n: nat, model: string)
    requires 0 < n <= |ks| && Offers(data, ks[n - 1], model)
    requires forall i :: 0 <= i < n - 1 ==> !Offers(data, ks[i], model)
    ensures BestOf(data, ks, n, model, Offer(data, ks[n - 1], model).value)
  {
    NotLess(ks[n - 1]);
  }

  lemma StayingIsBest(data: Catalog, ks: seq<string>, n: nat, model: string, current: Candidate)
    requires 0 < n <= |ks| && BestOf(data, ks, n - 1, model, current) && Offers(data, ks[n - 1], model)
    requires !Less(ks[n - 1], current.provider)
    requires !ShouldReplace(current, Offer(data, ks[n - 1], model).value)
    ensures BestOf(data, ks, n, model, current)
  {
  }

  lemma ReplacementIsBest(data: Catalog, ks: seq<string>, n: nat, model: string, current: Candidate)
    requires Ascending(ks) && 0 < n <= |ks| && BestOf(data, ks, n - 1, model, current) && Offers(data, ks[n - 1], model)
    requires !Less(ks[n - 1], current.provider)
    requires ShouldReplace(current, Offer(data, ks[n - 1], model).value)
    ensures BestOf(data, ks, n, model, Offer(data, ks[n - 1], model).value)
  {
    var next := Offer(data, ks[n - 1], model).value;
    NotLess(ks[n - 1]);
    assert next.input > 0.0;
    forall i | 0 <= i < n - 1
      ensures Beats(data, model, next, ks[i])
    {
      assert Beats(data, model, current, ks[i]);
    }
  }

  /** The selection loop of the models.dev conversion. A model is priced exactly when some provider
      offers a valid price; the price is zero only if every offer is; otherwise it is positive and
      below every positive offer plus 1e-9. It is the fold of `Choose` over the sorted providers. */
  method Select(data: Catalog) returns (selected: map<string, Candidate>, ghost order: seq<string>)
    ensures Ascending(order) && forall k :: k in order <==> k in data
    ensures forall m :: m in selected ==> Chosen(data, order, |order|, m) == Some(selected[m])
    ensures forall m :: m in selected <==> exists p :: Offers(data, p, m)
    ensures forall m :: m in selected ==> Offer(data, selected[m].provider, m) == Some(selected[m])
    ensures forall m, p :: m in selected ==> Beats(data, m, selected[m], p)
  {
    var providers := SortedKeys(data.Keys);
    selected := map[];
    for n := 0 to |providers|
      invariant forall m :: Lookup(selected, m) == Chosen(data, providers, n, m)
    {
      assert providers[n] in providers;
      selected := SelectFrom(data, providers, n, selected);
    }
    order := providers;
    assert forall m :: m in selected ==> Lookup(selected, m) == Some(selected[m]);
    forall m
      ensures m in selected <==> exists p :: Offers(data, p, m)
      ensures m in selected ==> Offer(data, selected[m].provider, m) == Some(selected[m])
      ensures forall p :: m in selected ==> Beats(data, m, selected[m], p)
    {
      assert Lookup(selected, m) == Chosen(data, providers, |providers|, m);
      ChosenIsBest(data, providers, |providers|, m);
      AllProviders(data, providers, m);
    }
  }

  lemma AllProviders(data: Catalog, ks: seq<string>, model: string)
    requires forall k :: k in ks <==> k in data
    ensures (exists p :: Offers(data, p, model)) <==> exists i :: 0 <= i < |ks| && Offers(data, ks[i], model)
    ensures forall p :: Offers(data, p, model) ==> exists i :: 0 <= i < |ks| && ks[i] == p
  {
    forall p | Offers(data, p, model)
      ensures exists i :: 0 <= i < |ks| && ks[i] == p
    {
      assert p in ks;
    }
  }

  /** One provider: its models, in sorted order, against the choices so far. */
  method SelectFrom(data: Catalog, providers: seq<string>, n: nat, before: map<string, Candidate>)
    returns (selected: map<string, Candidate>)
    requires n < |providers| && providers[n] in data
    requires forall m :: Lookup(before, m) == Chosen(data, providers, n, m)
    ensures forall m :: Lookup(selected, m) == Chosen(data, providers, n + 1, m)
  {
    var provider := providers[n];
    var models := SortedKeys(data[provider].Keys);
    selected := before;
    for i := 0 to |models|
      invariant forall m :: Lookup(selected, m) == Reached(data, providers, n, models[..i], m)
    {
      var model := models[i];
      NotYet(models, i);
      assert model in models;
      var candidate := Build(provider, data[provider][model]);
      ghost var last := selected;
      assert Chosen(data, providers, n + 1, model) == Choose(Lookup(selected, model), candidate);
      if candidate.Some? && (model !in selected || ShouldReplace(selected[model], candidate.value)) {
        selected := selected[model := candidate.value];
      }
      forall m
        ensures Lookup(selected, m) == Reached(data, providers, n, models[..i + 1], m)
      {
        assert Lookup(last, m) == Reached(data, providers, n, models[..i], m);
      }
    }
    assert models[..|models|] == models;
  }

  function Lookup(selected: map<string, Candidate>, m: string): Option<Candidate> {
    if m in selected then Some(selected[m]) else None
  }

  /** The choice for `m` when provider `n` has been asked about the models in `done`. */
  function Reached(data: Catalog, providers: seq<string>, n: nat, done: seq<string>, m: string): Option<Candidate>
    requires n < |providers|
  {
    if m in done then Chosen(data, providers, n + 1, m) else Chosen(data, providers, n, m)
  }

  lemma NotYet(models: seq<string>, i: nat)
    requires Ascending(models) && i < |models|
    ensures models[i] !in models[..i] && models[..i + 1] == models[..i] + [models[i]]
  {
    forall j | 0 <= j < i
      ensures models[j] != models[i]
    {
      LessAsymmetric(models[j], models[i]);
    }
  }

  /** Without the sorted visits the error adds up: three offers, each nearly equal to the next, visited
      in descending order, end more than 1e-9 above the cheapest. */
  lemma DriftWithoutOrder(price: real)
    requires price > 0.0
    ensures var a := Candidate("c", price, None, None);
            var b := Candidate("b", price + 0.0000000006, None, None);
            var c := Candidate("a", price + 0.0000000012, None, None);
            && Choose(Choose(Choose(None, Some(a)), Some(b)), Some(c)) == Some(c)
            && c.input >= a.input + EPSILON
  {
    assert Less("b", "c") && Less("a", "b");
  }
}
