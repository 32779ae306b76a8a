/**
 * Imported kubeconfig files (internal/kubeconfig): the part of Parse that
 * runs after YAML decoding (the missing-clusters check, field trimming and
 * the choice of the summary's name) and the import ledger, a list kept
 * newest first.
 */
module Kubeconfig {
  import opened Wrappers
  import opened Text
  import opened Clock

  datatype Cluster = Cluster(name: string, server: string)

  datatype Context = Context(name: string, cluster: string, user: string)

  datatype Summary = Summary(name: string, clusters: seq<Cluster>, contexts: seq<Context>,
                             currentContext: string, importedAt: Instant)

  /** The decoded document: the fields of the anonymous struct Parse decodes into. */
  datatype RawCluster = RawCluster(name: string, server: string)

  datatype RawContext = RawContext(name: string, cluster: string, user: string)

  datatype RawConfig = RawConfig(clusters: seq<RawCluster>, contexts: seq<RawContext>, currentContext: string)

  /** Why Parse fails: the decoder's own error, or a document without clusters. */
  datatype ParseError = DecodeFailed(cause: string) | MissingClusters

  // ---------------------------------------------------------------------------
  // Parse, after decoding
  // ---------------------------------------------------------------------------

  /** The clusters loop: every cluster, in order, with its name and server trimmed. */
  function TrimClusters(cs: seq<RawCluster>): (r: seq<Cluster>)
    ensures |r| == |cs|
    ensures forall i :: 0 <= i < |cs| ==>
              r[i].name == TrimSpace(cs[i].name) && r[i].server == TrimSpace(cs[i].server)
  {
    seq(|cs|, i requires 0 <= i < |cs| => Cluster(TrimSpace(cs[i].name), TrimSpace(cs[i].server)))
  }

  /** The contexts loop: every context, in order, with its name, cluster and user trimmed. */
  function TrimContexts(cs: seq<RawContext>): (r: seq<Context>)
    ensures |r| == |cs|
    ensures forall i :: 0 <= i < |cs| ==>
              && r[i].name == TrimSpace(cs[i].name)
              && r[i].cluster == TrimSpace(cs[i].cluster)
              && r[i].user == TrimSpace(cs[i].user)
  {
    seq(|cs|, i requires 0 <= i < |cs| =>
      Context(TrimSpace(cs[i].name), TrimSpace(cs[i].cluster), TrimSpace(cs[i].user)))
  }

  /**
   * The summary's name: the current context when it is not empty, else the
   * first context's name, else nothing. The choice is made on the current
   * context as written and only the chosen value is trimmed.
   */
  function SummaryName(currentContext: string, contexts: seq<Context>): (name: string)
    ensures Trimmed(name)
    ensures currentContext != "" ==> name == TrimSpace(currentContext)
    ensures currentContext == "" && |contexts| > 0 ==> name == TrimSpace(contexts[0].name)
    ensures currentContext == "" && |contexts| == 0 ==> name == ""
  {
    var chosen := if currentContext == "" && |contexts| > 0 then contexts[0].name else currentContext;
    TrimSpace(chosen)
  }

  /**
   * Parse: a decoding error is passed on; a document without clusters is
   * refused; otherwise the trimmed clusters and contexts, the chosen name,
   * the trimmed current context and the import time.
   */
  function Parse(decoded: Result<RawConfig, string>, now: Instant): (r: Result<Summary, ParseError>)
    ensures decoded.Failure? ==> r == Failure(DecodeFailed(decoded.error))
    ensures decoded.Success? && |decoded.value.clusters| == 0 ==> r == Failure(MissingClusters)
    ensures decoded.Success? && |decoded.value.clusters| > 0 ==>
              && r.Success?
              && r.value.clusters == TrimClusters(decoded.value.clusters)
              && r.value.contexts == TrimContexts(decoded.value.contexts)
              && r.value.name == SummaryName(decoded.value.currentContext, r.value.contexts)
              && r.value.currentContext == TrimSpace(decoded.value.currentContext)
              && r.value.importedAt == now
  {
    match decoded
    case Failure(e) => Failure(DecodeFailed(e))
    case Success(cfg) =>
      if |cfg.clusters| == 0 then Failure(MissingClusters)
      else
        var clusters := TrimClusters(cfg.clusters);
        var contexts := TrimContexts(cfg.contexts);
        Success(Summary(SummaryName(cfg.currentContext, contexts), clusters, contexts,
                        TrimSpace(cfg.currentContext), now))
  }

  /** Every string in a parsed summary is free of surrounding white space. */
  predicate Normalised(s: Summary) {
    && Trimmed(s.name) && Trimmed(s.currentContext)
    && (forall c :: c in s.clusters ==> Trimmed(c.name) && Trimmed(c.server))
    && (forall c :: c in s.contexts ==> Trimmed(c.name) && Trimmed(c.cluster) && Trimmed(c.user))
  }

  /** The clusters of a summary written back as decoded clusters. */
  function RawClusters(cs: seq<Cluster>): (r: seq<RawCluster>)
    ensures |r| == |cs|
  {
    seq(|cs|, i requires 0 <= i < |cs| => RawCluster(cs[i].name, cs[i].server))
  }

  /** The contexts of a summary written back as decoded contexts. */
  function RawContexts(cs: seq<Context>): (r: seq<RawContext>)
    ensures |r| == |cs|
  {
    seq(|cs|, i requires 0 <= i < |cs| => RawContext(cs[i].name, cs[i].cluster, cs[i].user))
  }

  /** A summary written back as a decoded document. */
  function Unparse(s: Summary): RawConfig {
    RawConfig(RawClusters(s.clusters), RawContexts(s.contexts), s.currentContext)
  }

  lemma ClustersTrimmed(cs: seq<RawCluster>)
    ensures forall c :: c in TrimClusters(cs) ==> Trimmed(c.name) && Trimmed(c.server)
  {
    var r := TrimClusters(cs);
    forall c | c in r ensures Trimmed(c.name) && Trimmed(c.server) {
      var i :| 0 <= i < |r| && r[i] == c;
    }
  }

  lemma ContextsTrimmed(cs: seq<RawContext>)
    ensures forall c :: c in TrimContexts(cs) ==> Trimmed(c.name) && Trimmed(c.cluster) && Trimmed(c.user)
  {
    var r := TrimContexts(cs);
    forall c | c in r ensures Trimmed(c.name) && Trimmed(c.cluster) && Trimmed(c.user) {
      var i :| 0 <= i < |r| && r[i] == c;
    }
  }

  /** Parse's output is normalised, and it has at least one cluster. */
  lemma ParseNormalises(decoded: Result<RawConfig, string>, now: Instant)
    requires Parse(decoded, now).Success?
    ensures Normalised(Parse(decoded, now).value)
    ensures |Parse(decoded, now).value.clusters| > 0
  {
    ClustersTrimmed(decoded.value.clusters);
    ContextsTrimmed(decoded.value.contexts);
  }

  /** A white-space-only current context wins the name choice and is then trimmed away: the name is empty even when contexts exist. */
  lemma BlankCurrentContextEmptiesName(currentContext: string, contexts: seq<Context>)
    requires currentContext != "" && AllSpace(currentContext)
    ensures SummaryName(currentContext, contexts) == ""
  {
    TrimAllSpace(currentContext);
  }

  /** Trimmed clusters come back unchanged from a second trimming. */
  lemma ClustersRoundTrip(cs: seq<Cluster>)
    requires forall c :: c in cs ==> Trimmed(c.name) && Trimmed(c.server)
    ensures TrimClusters(RawClusters(cs)) == cs
  {
    var r := TrimClusters(RawClusters(cs));
    forall i | 0 <= i < |cs| ensures r[i] == cs[i] {
      assert cs[i] in cs;
      TrimSpaceIdempotent(cs[i].name);
      TrimSpaceIdempotent(cs[i].server);
    }
  }

  /** Trimmed contexts come back unchanged from a second trimming. */
  lemma ContextsRoundTrip(cs: seq<Context>)
    requires forall c :: c in cs ==> Trimmed(c.name) && Trimmed(c.cluster) && Trimmed(c.user)
    ensures TrimContexts(RawContexts(cs)) == cs
  {
    var r := TrimContexts(RawContexts(cs));
    forall i | 0 <= i < |cs| ensures r[i] == cs[i] {
      assert cs[i] in cs;
      TrimSpaceIdempotent(cs[i].name);
      TrimSpaceIdempotent(cs[i].cluster);
      TrimSpaceIdempotent(cs[i].user);
    }
  }

  /**
   * The one case in which the name choice depends on whether the current
   * context was trimmed first: it is white space only, and the first
   * context has a non-empty name to fall back to.
   */
  predicate BlankChoice(currentContext: string, contexts: seq<Context>) {
    currentContext != "" && TrimSpace(currentContext) == "" && |contexts| > 0 && contexts[0].name != ""
  }

  /** Choosing the name from the trimmed current context gives the same name unless BlankChoice holds. */
  lemma NameRoundTrip(currentContext: string, contexts: seq<Context>)
    requires |contexts| > 0 ==> Trimmed(contexts[0].name)
    ensures SummaryName(TrimSpace(currentContext), contexts) == SummaryName(currentContext, contexts)
            <==> !BlankChoice(currentContext, contexts)
  {
    var t := TrimSpace(currentContext);
    TrimSpaceIdempotent(currentContext);
    assert TrimSpace(t) == t;
    if currentContext == "" {
      TrimSpaceIdempotent(currentContext);
      assert t == currentContext;
    } else if t != "" {
      assert SummaryName(t, contexts) == t;
      assert SummaryName(currentContext, contexts) == t;
    } else if |contexts| > 0 {
      TrimSpaceIdempotent(contexts[0].name);
      assert SummaryName(t, contexts) == contexts[0].name;
      assert SummaryName(currentContext, contexts) == "";
    } else {
      assert SummaryName(t, contexts) == "";
    }
  }

  /**
   * Parsing the written-back form of a parsed summary gives the summary
   * again, except in the BlankChoice case: the current context was white
   * space only, so the first parse named the summary "", while the second
   * sees an empty current context and falls back to the first context.
   */
  lemma ParseUnparse(decoded: Result<RawConfig, string>, now: Instant)
    requires Parse(decoded, now).Success?
    ensures var s := Parse(decoded, now).value;
            Parse(Success(Unparse(s)), now) == Success(s) <==> !BlankChoice(decoded.value.currentContext, s.contexts)
  {
    var s := Parse(decoded, now).value;
    var cfg := decoded.value;
    ParseNormalises(decoded, now);
    ClustersRoundTrip(s.clusters);
    ContextsRoundTrip(s.contexts);
    if |s.contexts| > 0 {
      assert s.contexts[0] in s.contexts;
    }
    NameRoundTrip(cfg.currentContext, s.contexts);
    TrimSpaceIdempotent(cfg.currentContext);
  }

  /** The sample document of the Go test, as decoded. */
  function Sample(): RawConfig {
    RawConfig([RawCluster("prod", "https://example.com")],
              [RawContext("prod-context", "prod", "admin")],
              "prod-context")
  }

  /** The Go test's parse: name prod-context, one cluster at https://example.com, one context on cluster prod. */
  lemma ParseSample(now: Instant)
    ensures Parse(Success(Sample()), now)
         == Success(Summary("prod-context", [Cluster("prod", "https://example.com")],
                            [Context("prod-context", "prod", "admin")], "prod-context", now))
  {
    ParseSingle("prod", "https://example.com", "prod-context", "prod", "admin", "prod-context", now);
  }

  /**
   * A document with one cluster, one context and a current context, all
   * written without surrounding white space, parses to the same strings.
   */
  lemma ParseSingle(clusterName: string, server: string, contextName: string, cluster: string,
                    user: string, currentContext: string, now: Instant)
    requires Trimmed(clusterName) && Trimmed(server)
    requires Trimmed(contextName) && Trimmed(cluster) && Trimmed(user)
    requires Trimmed(currentContext) && currentContext != ""
    ensures Parse(Success(RawConfig([RawCluster(clusterName, server)],
                                    [RawContext(contextName, cluster, user)], currentContext)), now)
         == Success(Summary(currentContext, [Cluster(clusterName, server)],
                            [Context(contextName, cluster, user)], currentContext, now))
  {
    TrimSpaceIdempotent(clusterName);
    TrimSpaceIdempotent(server);
    TrimSpaceIdempotent(contextName);
    TrimSpaceIdempotent(cluster);
    TrimSpaceIdempotent(user);
    TrimSpaceIdempotent(currentContext);
    var clusters := TrimClusters([RawCluster(clusterName, server)]);
    assert clusters == [Cluster(clusterName, server)];
    var contexts := TrimContexts([RawContext(contextName, cluster, user)]);
    assert contexts == [Context(contextName, cluster, user)];
  }

  /** The Go test's document without clusters is refused. */
  lemma ParseMissingClusters(now: Instant)
    ensures Parse(Success(RawConfig([], [], "")), now) == Failure(MissingClusters)
  {
  }

  // ---------------------------------------------------------------------------
  // The import ledger
  // ---------------------------------------------------------------------------

  class Store {
    var items: seq<Summary>

    /** NewStore: nothing imported yet. */
    constructor ()
      ensures items == []
    {
      items := [];
    }

    /** List: a copy of the imports, newest first; the store is unchanged. */
    method List() returns (r: seq<Summary>)
      ensures r == items
    {
      r := [] + items;
    }

    /** Add: the summary goes in front; nothing is deduplicated. */
    method Add(s: Summary)
      modifies this
      ensures items == [s] + old(items)
      ensures items[0] == s && |items| == |old(items)| + 1 && items[1..] == old(items)
    {
      items := [s] + items;
    }
  }

  /** Adding the same summary twice lists it twice. */
  method AddTwice(store: Store, s: Summary)
    modifies store
    ensures store.items == [s, s] + old(store.items)
    ensures multiset(store.items)[s] == multiset(old(store.items))[s] + 2
  {
    store.Add(s);
    store.Add(s);
    assert [s] + ([s] + old(store.items)) == [s, s] + old(store.items);
  }

  /** Imports are listed newest first: an empty store lists nothing, and after two imports the later one is first. */
  method ImportScenario(first: Summary, second: Summary)
  {
    var store := new Store();
    var empty := store.List();
    assert empty == [];
    store.Add(first);
    store.Add(second);
    var listed := store.List();
    assert listed == [second, first];
  }
}
