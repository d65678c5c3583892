/** Template rendering with its two caches, against rendering without any, over a store that
    other requests keep adding templates to.
 */
module Templates {
  import opened Domain
  import opened Creation

  datatype Template = Template(channel: Channel, body: string)

  type Store = map<string, Template>

  // Parsing and rendering, whatever they do.
  datatype Syntax<!P> = Syntax(parse: string -> Option<P>, render: (P, map<string, string>) -> Option<string>)

  datatype Rendering = Rendered(text: string) | Unknown | WrongChannel | BadTemplate | BadVars

  // Without caches: fetch, check the channel, parse, render.
  function Direct<P>(syntax: Syntax<P>, store: Store, ref: TemplateRef, channel: Channel): Rendering {
    if ref.name !in store then Unknown
    else if store[ref.name].channel != channel then WrongChannel
    else match syntax.parse(store[ref.name].body) {
      case None => BadTemplate
      case Some(compiled) =>
        match syntax.render(compiled, ref.vars)
        case None => BadVars
        case Some(text) => Rendered(text)
    }
  }

  predicate Grows(before: Store, after: Store) {
    forall name :: name in before ==> name in after && after[name] == before[name]
  }

  class TemplateStore {
    var templates: Store
    ghost var fetches: multiset<string> // how often it has handed out which template

    constructor ()
      ensures templates == map[] && fetches == multiset{}
    {
      templates, fetches := map[], multiset{};
    }

    // Other requests: templates are added under unused names and never changed.
    method Others()
      modifies this`templates
      ensures Grows(old(templates), templates)
    {
      var added: Store := *;
      templates := added + templates;
    }

    method GetTemplateByName(name: string, reachable: bool) returns (found: Option<Template>)
      modifies this`fetches
      ensures found == if reachable && name in templates then Some(templates[name]) else None
      ensures fetches == old(fetches) + if found.Some? then multiset{name} else multiset{}
    {
      found := None;
      if reachable && name in templates {
        found := Some(templates[name]);
        fetches := fetches + multiset{name};
      }
    }
  }

  class Engine<P> {
    const syntax: Syntax<P>
    ghost var parses: multiset<string> // how often it has been asked to parse which body

    constructor (syntax: Syntax<P>)
      ensures this.syntax == syntax && parses == multiset{}
    {
      this.syntax, parses := syntax, multiset{};
    }

    method Parse(body: string) returns (parsed: Option<P>)
      modifies this
      ensures parsed == syntax.parse(body)
      ensures parses == old(parses) + multiset{body}
    {
      parsed := syntax.parse(body);
      parses := parses + multiset{body};
    }
  }

  // The templates among these names that have this body.
  function WithBody(store: Store, names: set<string>, body: string): set<string> {
    set name | name in names && name in store && store[name].body == body
  }

  lemma OneMoreName(store: Store, names: set<string>, name: string)
    requires name in store && name !in names
    ensures forall body :: |WithBody(store, names + {name}, body)|
              == |WithBody(store, names, body)| + if store[name].body == body then 1 else 0
  {
    forall body
      ensures |WithBody(store, names + {name}, body)|
                == |WithBody(store, names, body)| + if store[name].body == body then 1 else 0
    {
      assert WithBody(store, names + {name}, body)
          == WithBody(store, names, body) + if store[name].body == body then {name} else {};
    }
  }

  // A body that parses has been parsed once for each of these names that has it.
  ghost predicate ParsedOnce<P>(syntax: Syntax<P>, store: Store, names: set<string>, before: multiset<string>,
        parses: multiset<string>)
  {
    forall body :: syntax.parse(body).Some? ==> parses[body] == before[body] + |WithBody(store, names, body)|
  }

  lemma ParsedOneMore<P>(syntax: Syntax<P>, store: Store, names: set<string>, before: multiset<string>,
        parses: multiset<string>, name: string)
    requires ParsedOnce(syntax, store, names, before, parses) && name in store && name !in names
    ensures var body := store[name].body;
            ParsedOnce(syntax, store, if syntax.parse(body).Some? then names + {name} else names, before,
                       parses + multiset{body})
  {
    OneMoreName(store, names, name);
  }

  lemma FetchedMore<P>(syntax: Syntax<P>, store: Store, more: Store, names: set<string>, before: multiset<string>,
        parses: multiset<string>)
    requires ParsedOnce(syntax, store, names, before, parses) && Grows(store, more) && names <= store.Keys
    ensures ParsedOnce(syntax, more, names, before, parses)
  {
    forall body ensures WithBody(more, names, body) == WithBody(store, names, body) { }
  }

  class TemplateResolver<P> {
    const repo: TemplateStore
    const engine: Engine<P>
    var templates: Store
    var compiled: map<string, P>
    // the two logs as they were when the resolver was made
    ghost const fetchesBefore: multiset<string>
    ghost const parsesBefore: multiset<string>

    // What is cached is what the store and the parser would answer; every cached template was
    // fetched once, and a body that parses was parsed once for every compiled template with it,
    // according to their own logs.
    ghost predicate Valid()
      reads this, repo, engine
    {
      && Grows(templates, repo.templates)
      && (forall name :: name in compiled ==>
            name in templates && engine.syntax.parse(templates[name].body) == Some(compiled[name]))
      && (forall name :: repo.fetches[name] == fetchesBefore[name] + if name in templates then 1 else 0)
      && ParsedOnce(engine.syntax, templates, compiled.Keys, parsesBefore, engine.parses)
    }

    constructor (repo: TemplateStore, engine: Engine<P>)
      ensures Valid() && this.repo == repo && this.engine == engine && templates == map[]
      ensures fetchesBefore == repo.fetches && parsesBefore == engine.parses
    {
      this.repo, this.engine := repo, engine;
      templates, compiled := map[], map[];
      fetchesBefore, parsesBefore := repo.fetches, engine.parses;
    }

    /** The cached render answers as the uncached one would on the store of that moment, unless
        the store is unreachable and the template has not been fetched yet; a template is
        fetched only if it has not been fetched before, and parsed only if it has not been
        parsed successfully before. */
    method Render(ref: TemplateRef, channel: Channel, reachable: bool) returns (r: Rendering)
      requires Valid()
      modifies this, repo, engine
      ensures Valid() && Grows(old(repo.templates), repo.templates)
      ensures r == Cached(engine.syntax, repo.templates, old(templates.Keys), ref, channel, reachable)
      ensures templates.Keys == FetchedNow(repo.templates, reachable, old(templates.Keys), ref.name)
      ensures var body := BodyFor(repo.templates, old(templates.Keys), ref, channel, reachable);
              && compiled.Keys == ParsedNow(engine.syntax, old(compiled.Keys), ref.name, body)
              && forall other :: engine.syntax.parse(other).None? ==>
                   engine.parses[other] == old(engine.parses[other]) + if body == Some(other) then 1 else 0
      ensures var found := if ref.name in repo.templates && (reachable || ref.name in old(templates.Keys))
                           then Some(repo.templates[ref.name]) else None;
              var fits := found.Some? && found.value.channel == channel;
              var parsed := if fits then engine.syntax.parse(found.value.body) else None;
              var text := if parsed.Some? then engine.syntax.render(parsed.value, ref.vars) else None;
              && (r == Unknown <==> found.None?)
              && (r == WrongChannel <==> found.Some? && !fits)
              && (r == BadTemplate <==> fits && parsed.None?)
              && (r == BadVars <==> parsed.Some? && text.None?)
              && (text.Some? ==> r == Rendered(text.value))
              && repo.fetches == old(repo.fetches)
                   + (if found.Some? && ref.name !in old(templates.Keys) then multiset{ref.name} else multiset{})
              && engine.parses == old(engine.parses)
                   + if fits && ref.name !in old(compiled.Keys) then multiset{found.value.body} else multiset{}
    {
      r := RenderFrom(ref, channel, reachable);
      RenderingIs(engine.syntax, repo.templates, old(templates.Keys), ref, channel, reachable);
    }

    method RenderFrom(ref: TemplateRef, channel: Channel, reachable: bool) returns (r: Rendering)
      requires Valid()
      modifies this, repo, engine
      ensures Valid() && Grows(old(repo.templates), repo.templates)
      ensures r == Cached(engine.syntax, repo.templates, old(templates.Keys), ref, channel, reachable)
      ensures templates.Keys == FetchedNow(repo.templates, reachable, old(templates.Keys), ref.name)
      ensures repo.fetches == old(repo.fetches)
                + if ref.name in templates && ref.name !in old(templates.Keys) then multiset{ref.name} else multiset{}
      ensures var body := BodyFor(repo.templates, old(templates.Keys), ref, channel, reachable);
              && compiled.Keys == ParsedNow(engine.syntax, old(compiled.Keys), ref.name, body)
              && engine.parses == old(engine.parses)
                   + (if body.Some? && ref.name !in old(compiled.Keys) then multiset{body.value} else multiset{})
              && (body.Some? && ref.name in old(compiled.Keys) ==> engine.syntax.parse(body.value).Some?)
    {
      var stored := Find(ref.name, reachable);
      if stored.None? { return Unknown; }
      if stored.value.channel != channel { return WrongChannel; }
      r := RenderStored(stored.value, ref);
    }

    // After whatever other requests have added.
    method Find(name: string, reachable: bool) returns (stored: Option<Template>)
      requires Valid()
      modifies this`templates, repo
      ensures Valid() && Grows(old(repo.templates), repo.templates)
      ensures templates.Keys == FetchedNow(repo.templates, reachable, old(templates.Keys), name)
      ensures repo.fetches == old(repo.fetches)
                + if name in templates && name !in old(templates.Keys) then multiset{name} else multiset{}
      ensures stored == if name in repo.templates && (reachable || name in old(templates.Keys))
                        then Some(repo.templates[name]) else None
      ensures stored.Some? ==> name in templates && templates[name] == stored.value
    {
      assert name in templates ==> name in repo.templates;
      repo.Others();
      stored := Load(name, reachable);
    }

    // From the cache, or else from the store.
    method Load(name: string, reachable: bool) returns (stored: Option<Template>)
      requires Valid()
      modifies this`templates, repo`fetches
      ensures Valid() && templates.Keys == FetchedNow(repo.templates, reachable, old(templates.Keys), name)
      ensures stored == if name in templates then Some(templates[name]) else None
      ensures repo.fetches == old(repo.fetches)
                + if name in templates && name !in old(templates.Keys) then multiset{name} else multiset{}
    {
      if name in templates { return Some(templates[name]); }
      stored := repo.GetTemplateByName(name, reachable);
      if stored.Some? {
        FetchedMore(engine.syntax, templates, templates[name := stored.value], compiled.Keys, parsesBefore,
                    engine.parses);
        templates := templates[name := stored.value];
      }
    }

    method RenderStored(stored: Template, ref: TemplateRef) returns (r: Rendering)
      requires Valid() && ref.name in templates && templates[ref.name] == stored
      modifies this`compiled, engine
      ensures Valid() && r == Direct(engine.syntax, repo.templates, ref, stored.channel)
      ensures compiled.Keys == ParsedNow(engine.syntax, old(compiled.Keys), ref.name, Some(stored.body))
      ensures engine.parses == old(engine.parses)
                + if ref.name !in old(compiled.Keys) then multiset{stored.body} else multiset{}
    {
      var parsed := Compile(stored, ref.name);
      if parsed.None? { return BadTemplate; }
      var rendered := engine.syntax.render(parsed.value, ref.vars);
      r := if rendered.None? then BadVars else Rendered(rendered.value);
    }

    // From the cache, or else from the parser.
    method Compile(stored: Template, name: string) returns (parsed: Option<P>)
      requires Valid() && name in templates && templates[name] == stored
      modifies this`compiled, engine
      ensures Valid() && parsed == engine.syntax.parse(stored.body)
      ensures compiled.Keys == ParsedNow(engine.syntax, old(compiled.Keys), name, Some(stored.body))
      ensures engine.parses == old(engine.parses)
                + if name !in old(compiled.Keys) then multiset{stored.body} else multiset{}
    {
      if name in compiled { return Some(compiled[name]); }
      ParsedOneMore(engine.syntax, templates, compiled.Keys, parsesBefore, engine.parses, name);
      parsed := engine.Parse(stored.body);
      if parsed.Some? {
        assert compiled[name := parsed.value].Keys == compiled.Keys + {name};
        compiled := compiled[name := parsed.value];
      }
    }
  }

  // The names fetched so far, once one more item has been rendered.
  function FetchedNow(store: Store, reachable: bool, fetched: set<string>, name: string): set<string> {
    if reachable && name in store then fetched + {name} else fetched
  }

  // The body that one item needs compiled, if it gets as far as that.
  function BodyFor(store: Store, fetched: set<string>, ref: TemplateRef, channel: Channel, reachable: bool)
    : Option<string>
  {
    if (reachable || ref.name in fetched) && ref.name in store && store[ref.name].channel == channel
    then Some(store[ref.name].body)
    else None
  }

  // The names compiled so far, once one more item has been rendered.
  function ParsedNow<P>(syntax: Syntax<P>, parsed: set<string>, name: string, body: Option<string>): set<string> {
    if body.Some? && syntax.parse(body.value).Some? then parsed + {name} else parsed
  }

  // The answer to one item.
  function Cached<P>(syntax: Syntax<P>, store: Store, fetched: set<string>, ref: TemplateRef, channel: Channel,
        reachable: bool): Rendering {
    if reachable || ref.name in fetched then Direct(syntax, store, ref, channel) else Unknown
  }

  // The answer, and the two caches, written out.
  lemma RenderingIs<P>(syntax: Syntax<P>, store: Store, fetched: set<string>, ref: TemplateRef, channel: Channel,
        reachable: bool)
    ensures var found := if ref.name in store && (reachable || ref.name in fetched)
                         then Some(store[ref.name]) else None;
            var fits := found.Some? && found.value.channel == channel;
            var parsed := if fits then syntax.parse(found.value.body) else None;
            var text := if parsed.Some? then syntax.render(parsed.value, ref.vars) else None;
            var r := Cached(syntax, store, fetched, ref, channel, reachable);
            && (r == Unknown <==> found.None?)
            && (r == WrongChannel <==> found.Some? && !fits)
            && (r == BadTemplate <==> fits && parsed.None?)
            && (r == BadVars <==> parsed.Some? && text.None?)
            && (text.Some? ==> r == Rendered(text.value))
            && (found.Some? && ref.name !in fetched <==>
                  ref.name in FetchedNow(store, reachable, fetched, ref.name) && ref.name !in fetched)
            && BodyFor(store, fetched, ref, channel, reachable) == if fits then Some(found.value.body) else None
  {
  }

  // The names fetched for the first n items of a batch: those of the items that found the
  // store reachable and the template in it.
  function FetchedBy(refs: seq<TemplateRef>, reachable: seq<bool>, stores: seq<Store>, n: nat): (names: set<string>)
    requires n <= |refs| && n <= |reachable| && n <= |stores|
    ensures names <= Names(refs)
  {
    if n == 0 then {}
    else
      assert refs[n - 1].name in Names(refs);
      FetchedNow(stores[n - 1], reachable[n - 1], FetchedBy(refs, reachable, stores, n - 1), refs[n - 1].name)
  }

  // The body that item i needs compiled.
  function BodyAt(refs: seq<TemplateRef>, channels: seq<Channel>, reachable: seq<bool>, stores: seq<Store>, i: nat)
    : Option<string>
    requires i < |refs| == |channels| == |reachable| && i < |stores|
  {
    BodyFor(stores[i], FetchedBy(refs, reachable, stores, i), refs[i], channels[i], reachable[i])
  }

  // The names compiled for the first n items.
  function ParsedBy<P>(syntax: Syntax<P>, refs: seq<TemplateRef>, channels: seq<Channel>, reachable: seq<bool>,
        stores: seq<Store>, n: nat): (names: set<string>)
    requires n <= |refs| == |channels| == |reachable| && n <= |stores|
    ensures names <= Names(refs)
  {
    if n == 0 then {}
    else
      assert refs[n - 1].name in Names(refs);
      ParsedNow(syntax, ParsedBy(syntax, refs, channels, reachable, stores, n - 1), refs[n - 1].name,
                BodyAt(refs, channels, reachable, stores, n - 1))
  }

  // How many of the first n items need this body compiled.
  function Needing(refs: seq<TemplateRef>, channels: seq<Channel>, reachable: seq<bool>, stores: seq<Store>,
        body: string, n: nat): nat
    requires n <= |refs| == |channels| == |reachable| && n <= |stores|
  {
    if n == 0 then 0
    else
      Needing(refs, channels, reachable, stores, body, n - 1)
      + if BodyAt(refs, channels, reachable, stores, n - 1) == Some(body) then 1 else 0
  }

  // The distinct template names of a batch.
  function Names(refs: seq<TemplateRef>): set<string> { set ref | ref in refs :: ref.name }

  lemma {:induction false} FetchedByPrefix(refs: seq<TemplateRef>, reachable: seq<bool>, stores: seq<Store>,
        store: Store, n: nat)
    requires n <= |refs| && n <= |reachable| && n <= |stores|
    ensures FetchedBy(refs, reachable, stores + [store], n) == FetchedBy(refs, reachable, stores, n)
  {
    if n > 0 { FetchedByPrefix(refs, reachable, stores, store, n - 1); }
  }

  lemma {:induction false} ParsedByPrefix<P>(syntax: Syntax<P>, refs: seq<TemplateRef>, channels: seq<Channel>,
        reachable: seq<bool>, stores: seq<Store>, store: Store, n: nat)
    requires n <= |refs| == |channels| == |reachable| && n <= |stores|
    ensures ParsedBy(syntax, refs, channels, reachable, stores + [store], n)
              == ParsedBy(syntax, refs, channels, reachable, stores, n)
  {
    if n > 0 {
      FetchedByPrefix(refs, reachable, stores, store, n - 1);
      ParsedByPrefix(syntax, refs, channels, reachable, stores, store, n - 1);
    }
  }

  lemma {:induction false} NeedingPrefix(refs: seq<TemplateRef>, channels: seq<Channel>, reachable: seq<bool>,
        stores: seq<Store>, store: Store, body: string, n: nat)
    requires n <= |refs| == |channels| == |reachable| && n <= |stores|
    ensures Needing(refs, channels, reachable, stores + [store], body, n)
              == Needing(refs, channels, reachable, stores, body, n)
  {
    if n > 0 {
      FetchedByPrefix(refs, reachable, stores, store, n - 1);
      NeedingPrefix(refs, channels, reachable, stores, store, body, n - 1);
    }
  }

  // What each item of a batch is answered.
  ghost predicate Answered<P>(syntax: Syntax<P>, refs: seq<TemplateRef>, channels: seq<Channel>, reachable: seq<bool>,
        stores: seq<Store>, i: nat, r: Rendering)
    requires i < |refs| == |channels| == |reachable| && i < |stores|
  {
    r == Cached(syntax, stores[i], FetchedBy(refs, reachable, stores, i), refs[i], channels[i], reachable[i])
  }

  // The stores that the items of a batch saw, from the one before it to the one after it.
  ghost predicate Chain(before: Store, stores: seq<Store>, after: Store) {
    && (forall i :: 0 <= i < |stores| ==> Grows(before, stores[i]) && Grows(stores[i], after))
    && (forall i, j :: 0 <= i <= j < |stores| ==> Grows(stores[i], stores[j]))
    && Grows(before, after)
  }

  // Where a batch stands after some items.
  ghost predicate Progress<P>(syntax: Syntax<P>, refs: seq<TemplateRef>, channels: seq<Channel>, reachable: seq<bool>,
        before: Store, stores: seq<Store>, now: Store, fetched: set<string>, results: seq<Rendering>)
    requires |refs| == |channels| == |reachable|
  {
    && |results| == |stores| <= |refs| && Chain(before, stores, now)
    && fetched == FetchedBy(refs, reachable, stores, |stores|)
    && forall i :: 0 <= i < |results| ==> Answered(syntax, refs, channels, reachable, stores, i, results[i])
  }

  lemma OneMoreItem<P>(syntax: Syntax<P>, refs: seq<TemplateRef>, channels: seq<Channel>, reachable: seq<bool>,
        before: Store, stores: seq<Store>, now: Store, fetched: set<string>, results: seq<Rendering>,
        store: Store)
    requires |refs| == |channels| == |reachable| && |results| < |refs|
    requires Progress(syntax, refs, channels, reachable, before, stores, now, fetched, results) && Grows(now, store)
    ensures var i := |results|;
            Progress(syntax, refs, channels, reachable, before, stores + [store], store,
                     FetchedNow(store, reachable[i], fetched, refs[i].name),
                     results + [Cached(syntax, store, fetched, refs[i], channels[i], reachable[i])])
  {
    forall i | 0 <= i <= |results|
      ensures FetchedBy(refs, reachable, stores + [store], i) == FetchedBy(refs, reachable, stores, i)
    {
      FetchedByPrefix(refs, reachable, stores, store, i);
    }
  }

  // What the parser has been asked by then: nothing new for the bodies that parse but once per
  // compiled name, and every body that does not parse once for every item that needs it.
  ghost predicate Parsing<P>(syntax: Syntax<P>, refs: seq<TemplateRef>, channels: seq<Channel>, reachable: seq<bool>,
        stores: seq<Store>, parsed: set<string>, before: multiset<string>, parses: multiset<string>)
    requires |refs| == |channels| == |reachable| && |stores| <= |refs|
  {
    && parsed == ParsedBy(syntax, refs, channels, reachable, stores, |stores|)
    && forall body :: syntax.parse(body).None? ==>
         parses[body] == before[body] + Needing(refs, channels, reachable, stores, body, |stores|)
  }

  lemma OneMoreParsed<P>(syntax: Syntax<P>, refs: seq<TemplateRef>, channels: seq<Channel>, reachable: seq<bool>,
        stores: seq<Store>, parsed: set<string>, before: multiset<string>, parses: multiset<string>,
        store: Store, parses': multiset<string>)
    requires |refs| == |channels| == |reachable| && |stores| < |refs|
    requires Parsing(syntax, refs, channels, reachable, stores, parsed, before, parses)
    requires var i := |stores|;
             var needs := BodyFor(store, FetchedBy(refs, reachable, stores, i), refs[i], channels[i], reachable[i]);
             forall body :: syntax.parse(body).None? ==>
               parses'[body] == parses[body] + if needs == Some(body) then 1 else 0
    ensures var i := |stores|;
            var needs := BodyFor(store, FetchedBy(refs, reachable, stores, i), refs[i], channels[i], reachable[i]);
            Parsing(syntax, refs, channels, reachable, stores + [store],
                    ParsedNow(syntax, parsed, refs[i].name, needs), before, parses')
  {
    var i := |stores|;
    FetchedByPrefix(refs, reachable, stores, store, i);
    ParsedByPrefix(syntax, refs, channels, reachable, stores, store, i);
    forall body { NeedingPrefix(refs, channels, reachable, stores, store, body, i); }
  }

  method RenderItems<P>(resolver: TemplateResolver<P>, refs: seq<TemplateRef>, channels: seq<Channel>,
        reachable: seq<bool>)
    returns (results: seq<Rendering>, ghost stores: seq<Store>)
    requires |channels| == |refs| == |reachable| && resolver.Valid()
    requires resolver.templates == map[] && resolver.compiled == map[]
    modifies resolver, resolver.repo, resolver.engine
    ensures resolver.Valid() && |results| == |refs|
    ensures Progress(resolver.engine.syntax, refs, channels, reachable, old(resolver.repo.templates), stores,
                     resolver.repo.templates, resolver.templates.Keys, results)
    ensures Parsing(resolver.engine.syntax, refs, channels, reachable, stores, resolver.compiled.Keys,
                    old(resolver.engine.parses), resolver.engine.parses)
  {
    results, stores := [], [];
    for i := 0 to |refs|
      invariant resolver.Valid() && |results| == i
      invariant Progress(resolver.engine.syntax, refs, channels, reachable, old(resolver.repo.templates), stores,
                         resolver.repo.templates, resolver.templates.Keys, results)
      invariant Parsing(resolver.engine.syntax, refs, channels, reachable, stores, resolver.compiled.Keys,
                        old(resolver.engine.parses), resolver.engine.parses)
    {
      ghost var now, fetched := resolver.repo.templates, resolver.templates.Keys;
      ghost var parsed, parses := resolver.compiled.Keys, resolver.engine.parses;
      var r := resolver.Render(refs[i], channels[i], reachable[i]);
      OneMoreItem(resolver.engine.syntax, refs, channels, reachable, old(resolver.repo.templates), stores, now, fetched,
                  results, resolver.repo.templates);
      OneMoreParsed(resolver.engine.syntax, refs, channels, reachable, stores, parsed, old(resolver.engine.parses),
                    parses, resolver.repo.templates, resolver.engine.parses);
      results, stores := results + [r], stores + [resolver.repo.templates];
    }
  }

  lemma {:induction false} FetchedByAre(refs: seq<TemplateRef>, reachable: seq<bool>, stores: seq<Store>, n: nat)
    requires n <= |refs| && n <= |reachable| && n <= |stores|
    ensures forall name :: name in FetchedBy(refs, reachable, stores, n) <==>
              exists i :: 0 <= i < n && reachable[i] && refs[i].name == name && name in stores[i]
  {
    if n > 0 {
      FetchedByAre(refs, reachable, stores, n - 1);
      forall name | exists i :: 0 <= i < n && reachable[i] && refs[i].name == name && name in stores[i]
        ensures name in FetchedBy(refs, reachable, stores, n)
      {
        var i :| 0 <= i < n && reachable[i] && refs[i].name == name && name in stores[i];
        assert i == n - 1 || i < n - 1;
      }
    }
  }

  // Item i finds its template: it, or an item before it with the same name, got it from the store.
  ghost predicate Finds(refs: seq<TemplateRef>, reachable: seq<bool>, stores: seq<Store>, i: nat)
    requires i < |refs| == |reachable| && i < |stores|
  {
    exists j :: 0 <= j <= i && reachable[j] && refs[j].name == refs[i].name && refs[i].name in stores[j]
  }

  lemma AnswerIs<P>(syntax: Syntax<P>, refs: seq<TemplateRef>, channels: seq<Channel>, reachable: seq<bool>,
        before: Store, stores: seq<Store>, after: Store, i: nat, r: Rendering)
    requires i < |refs| == |channels| == |reachable| && i < |stores| && Chain(before, stores, after)
    requires Answered(syntax, refs, channels, reachable, stores, i, r)
    ensures Finds(refs, reachable, stores, i) ==> refs[i].name in stores[i]
    ensures r == if !Finds(refs, reachable, stores, i) then Unknown
                 else Direct(syntax, stores[i], refs[i], channels[i])
    ensures BodyAt(refs, channels, reachable, stores, i)
              == if Finds(refs, reachable, stores, i) && stores[i][refs[i].name].channel == channels[i]
                 then Some(stores[i][refs[i].name].body) else None
  {
    FetchedByAre(refs, reachable, stores, i);
    if Finds(refs, reachable, stores, i) {
      var j :| 0 <= j <= i && reachable[j] && refs[j].name == refs[i].name && refs[i].name in stores[j];
      assert Grows(stores[j], stores[i]);
    } else {
      assert !reachable[i] || refs[i].name !in stores[i];
      assert refs[i].name !in FetchedBy(refs, reachable, stores, i);
    }
  }

  // Item i needs a body compiled, and it parses.
  ghost predicate Compiles<P>(syntax: Syntax<P>, refs: seq<TemplateRef>, channels: seq<Channel>, reachable: seq<bool>,
        stores: seq<Store>, i: nat)
    requires i < |refs| == |channels| == |reachable| && i < |stores|
  {
    && BodyAt(refs, channels, reachable, stores, i).Some?
    && syntax.parse(BodyAt(refs, channels, reachable, stores, i).value).Some?
  }

  lemma {:induction false} ParsedByAre<P>(syntax: Syntax<P>, refs: seq<TemplateRef>, channels: seq<Channel>,
        reachable: seq<bool>, stores: seq<Store>, n: nat)
    requires n <= |refs| == |channels| == |reachable| && n <= |stores|
    ensures forall name :: name in ParsedBy(syntax, refs, channels, reachable, stores, n) <==>
              exists i :: 0 <= i < n && refs[i].name == name && Compiles(syntax, refs, channels, reachable, stores, i)
  {
    if n > 0 {
      ParsedByAre(syntax, refs, channels, reachable, stores, n - 1);
      forall name |
        exists i :: 0 <= i < n && refs[i].name == name && Compiles(syntax, refs, channels, reachable, stores, i)
        ensures name in ParsedBy(syntax, refs, channels, reachable, stores, n)
      {
        var i :| 0 <= i < n && refs[i].name == name && Compiles(syntax, refs, channels, reachable, stores, i);
        assert i == n - 1 || i < n - 1;
      }
    }
  }

  lemma {:induction false} NeedingAre(refs: seq<TemplateRef>, channels: seq<Channel>, reachable: seq<bool>,
        stores: seq<Store>, body: string, n: nat)
    returns (items: seq<nat>)
    requires n <= |refs| == |channels| == |reachable| && n <= |stores|
    ensures Needing(refs, channels, reachable, stores, body, n) == |items|
    ensures forall k :: 0 <= k < |items| ==> items[k] < n
    ensures forall k, l :: 0 <= k < l < |items| ==> items[k] < items[l]
    ensures forall i :: i in items <==> 0 <= i < n && BodyAt(refs, channels, reachable, stores, i) == Some(body)
  {
    if n == 0 {
      items := [];
    } else {
      items := NeedingAre(refs, channels, reachable, stores, body, n - 1);
      if BodyAt(refs, channels, reachable, stores, n - 1) == Some(body) { items := items + [n - 1]; }
    }
  }

  /** A batch, over a store that grows meanwhile and may be unreachable for some items, renders
      every item as if nothing were cached: an item finds its template if it reaches the store
      and the template is there, or an earlier one did. By the store's own count each of those
      names is fetched once and nothing else is, however many items use it. By the parser's own
      count a body that parses is parsed once for each name that has it, of those that an item
      needed; one that does not parse is parsed again for every item that needs it. */
  method RenderBatch<P>(repo: TemplateStore, engine: Engine<P>, refs: seq<TemplateRef>, channels: seq<Channel>,
        reachable: seq<bool>)
    returns (results: seq<Rendering>, ghost stores: seq<Store>)
    requires |channels| == |refs| == |reachable|
    modifies repo, engine
    ensures |results| == |refs| == |stores| && Chain(old(repo.templates), stores, repo.templates)
    ensures forall i :: 0 <= i < |refs| ==>
              var found := exists j :: 0 <= j <= i && reachable[j] && refs[j].name == refs[i].name
                                       && refs[i].name in stores[j];
              && (!found ==> results[i] == Unknown)
              && (found ==> refs[i].name in stores[i])
              && (found && stores[i][refs[i].name].channel != channels[i] ==> results[i] == WrongChannel)
              && (found && stores[i][refs[i].name].channel == channels[i] ==>
                    var parsed := engine.syntax.parse(stores[i][refs[i].name].body);
                    var text := if parsed.Some? then engine.syntax.render(parsed.value, refs[i].vars) else None;
                    results[i] == if parsed == None then BadTemplate
                                  else if text == None then BadVars else Rendered(text.value))
    ensures forall name :: repo.fetches[name] == old(repo.fetches[name])
              + if exists i :: 0 <= i < |refs| && reachable[i] && refs[i].name == name && name in stores[i]
                then 1 else 0
    ensures forall body :: engine.parses[body] == old(engine.parses[body]) +
              if engine.syntax.parse(body).Some?
              then |WithBody(repo.templates, ParsedBy(engine.syntax, refs, channels, reachable, stores, |refs|), body)|
              else Needing(refs, channels, reachable, stores, body, |refs|)
  {
    var resolver := new TemplateResolver(repo, engine);
    results, stores := RenderItems(resolver, refs, channels, reachable);
    FetchedMore(engine.syntax, resolver.templates, repo.templates, resolver.compiled.Keys, resolver.parsesBefore,
                engine.parses);
    FetchedByAre(refs, reachable, stores, |refs|);
    forall i | 0 <= i < |refs| {
      AnswerIs(engine.syntax, refs, channels, reachable, old(repo.templates), stores, repo.templates, i, results[i]);
    }
  }
}
