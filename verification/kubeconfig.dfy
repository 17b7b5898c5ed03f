/**
 Taking one context out of a kubeconfig file (internal/clusters/import.go): the context goes, and the cluster and
 user it named go with it unless another context still names them.
 */
module KubeconfigFile {
  /** A context names a cluster and a user; an entry of the file may also be null. */
  datatype Context = Null | Context(cluster: string, user: string)

  datatype Config = Config(
    contexts: map<string, Context>, clusters: set<string>, users: set<string>, currentContext: string)

  datatype Outcome = NotHere | Unlinked | Rewritten(config: Config)

  function ClusterOf(c: Context): string {
    if c.Null? then "" else c.cluster
  }

  function UserOf(c: Context): string {
    if c.Null? then "" else c.user
  }

  predicate NamesCluster(contexts: map<string, Context>, cluster: string) {
    exists x :: x in contexts && contexts[x].Context? && contexts[x].cluster == cluster
  }

  predicate NamesUser(contexts: map<string, Context>, user: string) {
    exists x :: x in contexts && contexts[x].Context? && contexts[x].user == user
  }

  /** The part of `removeFromImportedFile` that deals with one file. */
  method RemoveContext(cfg: Config, name: string) returns (outcome: Outcome)
    ensures outcome.NotHere? <==> name !in cfg.contexts
    ensures outcome.Unlinked? <==> name in cfg.contexts && |cfg.contexts| <= 1
    ensures outcome.Rewritten? ==> outcome.config == Stripped(cfg, name)
  {
    if name !in cfg.contexts {
      return NotHere;
    }
    if |cfg.contexts| <= 1 {
      return Unlinked;
    }
    var ctx := cfg.contexts[name];
    var clusterName, userName := ClusterOf(ctx), UserOf(ctx);
    var contexts := cfg.contexts - {name};
    var stillUsedCluster, stillUsedUser := false, false;
    var todo := contexts.Keys;
    while todo != {}
      invariant todo <= contexts.Keys
      invariant stillUsedCluster <==> (clusterName != "" &&
        (exists x :: x in contexts && x !in todo && contexts[x].Context? && contexts[x].cluster == clusterName))
      invariant stillUsedUser <==> (userName != "" &&
        (exists x :: x in contexts && x !in todo && contexts[x].Context? && contexts[x].user == userName))
      decreases todo
    {
      var x :| x in todo;
      todo := todo - {x};
      if contexts[x].Context? {
        if clusterName != "" && contexts[x].cluster == clusterName {
          stillUsedCluster := true;
        }
        if userName != "" && contexts[x].user == userName {
          stillUsedUser := true;
        }
      }
    }
    return Rewritten(Config(
      contexts,
      if stillUsedCluster then cfg.clusters else cfg.clusters - {clusterName},
      if stillUsedUser then cfg.users else cfg.users - {userName},
      if cfg.currentContext == name then "" else cfg.currentContext));
  }

  /** The file without the context and without what only the context named. */
  function Stripped(cfg: Config, name: string): Config
    requires name in cfg.contexts
  {
    var rest := cfg.contexts - {name};
    var cluster, user := ClusterOf(cfg.contexts[name]), UserOf(cfg.contexts[name]);
    Config(rest,
           if cluster != "" && NamesCluster(rest, cluster) then cfg.clusters else cfg.clusters - {cluster},
           if user != "" && NamesUser(rest, user) then cfg.users else cfg.users - {user},
           if cfg.currentContext == name then "" else cfg.currentContext)
  }

  // ---- what garbage collection must mean ----

  predicate Resolves(cfg: Config, c: Context) {
    c.Context? ==> c.cluster in cfg.clusters && c.user in cfg.users
  }

  /** Every remaining context that resolved before still resolves. */
  ghost predicate KeepsReferences(cfg: Config, after: Config) {
    forall x :: x in after.contexts && Resolves(cfg, after.contexts[x]) ==> Resolves(after, after.contexts[x])
  }

  /** No cluster and no user is without a context that names it. */
  ghost predicate NoGarbage(cfg: Config) {
    && (forall k :: k in cfg.clusters ==> NamesCluster(cfg.contexts, k))
    && (forall k :: k in cfg.users ==> NamesUser(cfg.contexts, k))
  }

  /**
   The context set loses exactly the removed name, and no other context changes. Besides the entries the context named
   no cluster and no user goes, and the file's current context changes only if it was the removed one.
   */
  lemma ContextsLoseOne(cfg: Config, name: string)
    requires name in cfg.contexts
    ensures Stripped(cfg, name).contexts.Keys == cfg.contexts.Keys - {name}
    ensures forall x :: x in Stripped(cfg, name).contexts ==> Stripped(cfg, name).contexts[x] == cfg.contexts[x]
    ensures forall k :: k in cfg.clusters && k != ClusterOf(cfg.contexts[name]) ==> k in Stripped(cfg, name).clusters
    ensures forall k :: k in cfg.users && k != UserOf(cfg.contexts[name]) ==> k in Stripped(cfg, name).users
    ensures Stripped(cfg, name).clusters <= cfg.clusters && Stripped(cfg, name).users <= cfg.users
    ensures cfg.currentContext == name ==> Stripped(cfg, name).currentContext == ""
    ensures cfg.currentContext != name ==> Stripped(cfg, name).currentContext == cfg.currentContext
  {
  }

  /** A nameless reference: some other context that resolves names its cluster, or its user, with the empty string. */
  ghost predicate SharesNamelessEntry(cfg: Config, name: string)
    requires name in cfg.contexts
  {
    exists x :: x in cfg.contexts && x != name && cfg.contexts[x].Context? && Resolves(cfg, cfg.contexts[x])
      && ((ClusterOf(cfg.contexts[name]) == "" && cfg.contexts[x].cluster == "")
          || (UserOf(cfg.contexts[name]) == "" && cfg.contexts[x].user == ""))
  }

  /**
   References survive exactly when the removed context shares no entry with an empty name: such an entry is deleted
   even if another context names it.
   */
  lemma ReferencesKeptIff(cfg: Config, name: string)
    requires name in cfg.contexts
    ensures KeepsReferences(cfg, Stripped(cfg, name)) <==> !SharesNamelessEntry(cfg, name)
  {
    var after := Stripped(cfg, name);
    if SharesNamelessEntry(cfg, name) {
      var x :| x in cfg.contexts && x != name && cfg.contexts[x].Context? && Resolves(cfg, cfg.contexts[x])
        && ((ClusterOf(cfg.contexts[name]) == "" && cfg.contexts[x].cluster == "")
            || (UserOf(cfg.contexts[name]) == "" && cfg.contexts[x].user == ""));
      assert x in after.contexts && !Resolves(after, after.contexts[x]);
    } else {
      forall x | x in after.contexts && Resolves(cfg, after.contexts[x])
        ensures Resolves(after, after.contexts[x])
      {
        KeptAt(cfg, name, x);
      }
    }
  }

  /** Such a file: two contexts whose cluster is the entry with the empty name, which goes with the first of them. */
  lemma NamelessEntryIsLost(user1: string, user2: string)
    ensures var cfg := Config(map["a" := Context("", user1), "b" := Context("", user2)], {""}, {user1, user2}, "b");
      Resolves(cfg, cfg.contexts["b"]) && !Resolves(Stripped(cfg, "a"), cfg.contexts["b"])
      && !KeepsReferences(cfg, Stripped(cfg, "a"))
  {
    var cfg := Config(map["a" := Context("", user1), "b" := Context("", user2)], {""}, {user1, user2}, "b");
    var after := Stripped(cfg, "a");
    assert after.contexts["b"] == cfg.contexts["b"] && "" !in after.clusters;
  }

  lemma KeptAt(cfg: Config, name: string, x: string)
    requires name in cfg.contexts && x in cfg.contexts && x != name
    requires Resolves(cfg, cfg.contexts[x]) && !SharesNamelessEntry(cfg, name)
    ensures Resolves(Stripped(cfg, name), cfg.contexts[x])
  {
    var rest := cfg.contexts - {name};
    if cfg.contexts[x].Context? {
      assert rest[x] == cfg.contexts[x];
      assert NamesCluster(rest, cfg.contexts[x].cluster) && NamesUser(rest, cfg.contexts[x].user);
    }
  }

  /** A file without unreferenced entries has none afterwards. */
  lemma NoGarbageLeft(cfg: Config, name: string)
    requires name in cfg.contexts && NoGarbage(cfg)
    ensures NoGarbage(Stripped(cfg, name))
  {
    var after := Stripped(cfg, name);
    forall k | k in after.clusters
      ensures NamesCluster(after.contexts, k)
    {
      var x :| x in cfg.contexts && cfg.contexts[x].Context? && cfg.contexts[x].cluster == k;
      if x != name {
        assert after.contexts[x] == cfg.contexts[x];
      }
    }
    forall k | k in after.users
      ensures NamesUser(after.contexts, k)
    {
      var x :| x in cfg.contexts && cfg.contexts[x].Context? && cfg.contexts[x].user == k;
      if x != name {
        assert after.contexts[x] == cfg.contexts[x];
      }
    }
  }
}
