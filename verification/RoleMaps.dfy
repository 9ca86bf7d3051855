/** Role maps and their layers (crates/vgi-bridge/src/config.rs, crates/vgi-forge/src/rights.rs): which forge role
    an owner, a maintainer and a committer get, from the bridge-wide settings down to one repository's. */
module RoleMaps {
  import opened Wrappers

  datatype ForgeRole = NoRole | Read | Triage | Write | Maintain | Admin
  {
    function Rank(): nat {
      match this case NoRole => 0 case Read => 1 case Triage => 2 case Write => 3 case Maintain => 4 case Admin => 5
    }
  }

  /** A map the constructor accepted. */
  datatype RoleMap = RoleMap(own: ForgeRole, maintain: ForgeRole, commit: ForgeRole)

  /** One layer: the fields it sets. */
  datatype Layer = Layer(own: Option<ForgeRole>, maintain: Option<ForgeRole>, commit: Option<ForgeRole>)

  const DEFAULT := RoleMap(Admin, Maintain, NoRole)
  const UNSET := Layer(None, None, None)

  /** The checks of the constructor, in its order. */
  function NewRoleMap(own: ForgeRole, maintain: ForgeRole, commit: ForgeRole): (r: Result<RoleMap, string>)
    ensures r.Ok? <==> Allowed(RoleMap(own, maintain, commit))
    ensures r.Ok? ==> r.value == RoleMap(own, maintain, commit)
  {
    if maintain.Rank() >= Admin.Rank() then Err("a maintainer may not be an administrator")
    else if commit.Rank() >= Admin.Rank() then Err("a committer may not be an administrator")
    else if maintain.Rank() > own.Rank() then Err("a maintainer may not get more than an owner")
    else if commit.Rank() > maintain.Rank() then Err("a committer may not get more than a maintainer")
    else if commit.Rank() > Write.Rank() then Err("a committer may at most write")
    else Ok(RoleMap(own, maintain, commit))
  }

  /** Role `a` allows no more than `b`. */
  ghost predicate AtMost(a: ForgeRole, b: ForgeRole) {
    match b
    case NoRole => a.NoRole?
    case Read => a.NoRole? || a.Read?
    case Triage => a.NoRole? || a.Read? || a.Triage?
    case Write => !a.Admin? && !a.Maintain?
    case Maintain => !a.Admin?
    case Admin => true
  }

  /** What a map promises: each tier at most the one above, only an owner an administrator, a committer at most
      a writer. */
  ghost predicate Allowed(m: RoleMap) {
    AtMost(m.commit, m.maintain) && AtMost(m.maintain, m.own) && !m.maintain.Admin? && AtMost(m.commit, Write)
  }

  // ---- Layers ----

  function Or<T>(a: Option<T>, b: Option<T>): Option<T> {
    if a.Some? then a else b
  }

  /** `top` over `base`: each field `top` sets wins. */
  function Over(top: Layer, base: Layer): Layer {
    Layer(Or(top.own, base.own), Or(top.maintain, base.maintain), Or(top.commit, base.commit))
  }

  function Merge(layers: seq<Option<Layer>>): Layer {
    if layers == [] then UNSET
    else
      var rest, last := Merge(layers[..|layers| - 1]), layers[|layers| - 1];
      if last.Some? then Over(last.value, rest) else rest
  }

  function OrElse<T>(a: Option<T>, b: T): T {
    if a.Some? then a.value else b
  }

  /** What the layers come to, unset fields as built in. */
  function Resolve(layers: seq<Option<Layer>>): Result<RoleMap, string> {
    var m := Merge(layers);
    NewRoleMap(OrElse(m.own, DEFAULT.own), OrElse(m.maintain, DEFAULT.maintain), OrElse(m.commit, DEFAULT.commit))
  }

  datatype Tier = Own | Maintaining | Committing

  ghost function Field(l: Layer, tier: Tier): Option<ForgeRole> {
    match tier case Own => l.own case Maintaining => l.maintain case Committing => l.commit
  }

  ghost function RoleOf(m: RoleMap, tier: Tier): ForgeRole {
    match tier case Own => m.own case Maintaining => m.maintain case Committing => m.commit
  }

  ghost predicate Sets(layer: Option<Layer>, tier: Tier) {
    layer.Some? && Field(layer.value, tier).Some?
  }

  /** `role` is what the most specific of `layers` to set `tier` says, or the default if none does. */
  ghost predicate MostSpecific(layers: seq<Option<Layer>>, tier: Tier, role: ForgeRole) {
    || (exists i :: 0 <= i < |layers| && Sets(layers[i], tier) && Field(layers[i].value, tier) == Some(role)
                    && forall j :: i < j < |layers| ==> !Sets(layers[j], tier))
    || (role == RoleOf(DEFAULT, tier) && forall i :: 0 <= i < |layers| ==> !Sets(layers[i], tier))
  }

  lemma {:induction false} MergedIsMostSpecific(layers: seq<Option<Layer>>, tier: Tier)
    ensures MostSpecific(layers, tier, OrElse(Field(Merge(layers), tier), RoleOf(DEFAULT, tier)))
    ensures Field(Merge(layers), tier).None? ==> forall i :: 0 <= i < |layers| ==> !Sets(layers[i], tier)
  {
    if layers != [] {
      var n := |layers| - 1;
      MergedIsMostSpecific(layers[..n], tier);
      var role := OrElse(Field(Merge(layers), tier), RoleOf(DEFAULT, tier));
      if Sets(layers[n], tier) {
        assert Field(layers[n].value, tier) == Some(role);
      } else if i :| 0 <= i < n && Sets(layers[..n][i], tier) && Field(layers[..n][i].value, tier) == Some(role)
                     && forall j :: i < j < n ==> !Sets(layers[..n][j], tier) {
        assert Sets(layers[i], tier);
        forall j | i < j < |layers| ensures !Sets(layers[j], tier) {
          assert j < n ==> layers[j] == layers[..n][j];
        }
      } else {
        forall j | 0 <= j < |layers| ensures !Sets(layers[j], tier) {
          assert j < n ==> layers[j] == layers[..n][j];
        }
      }
    }
  }

  /** MAIN RESULT. A map that resolves is field by field the most specific layer's word, and is allowed; layers
      resolve exactly when that map is allowed. */
  lemma ResolveIsMostSpecific(layers: seq<Option<Layer>>, m: RoleMap)
    ensures Resolve(layers) == Ok(m) <==>
      Allowed(m) && MostSpecific(layers, Own, m.own) && MostSpecific(layers, Maintaining, m.maintain)
      && MostSpecific(layers, Committing, m.commit)
  {
    var r := Merge(layers);
    MergedIsMostSpecific(layers, Own);
    MergedIsMostSpecific(layers, Maintaining);
    MergedIsMostSpecific(layers, Committing);
    var made := RoleMap(OrElse(r.own, DEFAULT.own), OrElse(r.maintain, DEFAULT.maintain), OrElse(r.commit, DEFAULT.commit));
    if MostSpecific(layers, Own, m.own) && MostSpecific(layers, Maintaining, m.maintain)
       && MostSpecific(layers, Committing, m.commit) {
      MostSpecificIsOne(layers, Own, m.own, made.own);
      MostSpecificIsOne(layers, Maintaining, m.maintain, made.maintain);
      MostSpecificIsOne(layers, Committing, m.commit, made.commit);
    }
  }

  lemma MostSpecificIsOne(layers: seq<Option<Layer>>, tier: Tier, a: ForgeRole, b: ForgeRole)
    requires MostSpecific(layers, tier, a) && MostSpecific(layers, tier, b)
    ensures a == b
  {
  }

  // ---- The configuration ----

  datatype RepoConfig = RepoConfig(roleMap: Option<Layer>)

  datatype NamespaceConfig = NamespaceConfig(roleMap: Option<Layer>, repos: map<string, RepoConfig>)

  /** A forge entry: a GitHub App's, with its owner, or a Forgejo host's. */
  datatype Forge = Forge(host: string, appOwner: Option<string>, roleMap: Option<Layer>, namespaces: map<string,
                         NamespaceConfig>)

  /** A Forgejo entry's host is the one its URL names, if it names one. */
  datatype Config = Config(roleMap: Layer, github: seq<Forge>, forgejo: seq<(Option<string>, Forge)>)

  function Lower(s: string): (t: string)
    ensures |t| == |s| && forall i :: 0 <= i < |s| ==>
      t[i] == if 'A' <= s[i] <= 'Z' then (s[i] as int + 32) as char else s[i]
  {
    seq(|s|, i requires 0 <= i < |s| => if 'A' <= s[i] <= 'Z' then (s[i] as int + 32) as char else s[i])
  }

  /** The entry whose App `owner` owns on `host`: the first, if several. */
  function GithubFor(entries: seq<Forge>, host: string, owner: string): (r: Option<Forge>)
    ensures r.Some? ==> exists i :: 0 <= i < |entries| && entries[i] == r.value && Serves(r.value, host, owner)
                                    && forall j :: 0 <= j < i ==> !Serves(entries[j], host, owner)
    ensures r.None? <==> forall g :: g in entries ==> !Serves(g, host, owner)
  {
    if entries == [] then None
    else if Serves(entries[0], host, owner) then Some(entries[0])
    else
      var rest := GithubFor(entries[1..], host, owner);
      assert forall j :: 0 < j < |entries| ==> entries[j] == entries[1..][j - 1];
      rest
  }

  predicate Serves(g: Forge, host: string, owner: string) {
    g.host == host && g.appOwner.Some? && Lower(g.appOwner.value) == Lower(owner)
  }

  function ForgejoFor(entries: seq<(Option<string>, Forge)>, host: string): (r: Option<Forge>)
    ensures r.Some? ==> exists i :: 0 <= i < |entries| && entries[i] == (Some(host), r.value)
                                    && forall j :: 0 <= j < i ==> entries[j].0 != Some(host)
    ensures r.None? <==> forall i :: 0 <= i < |entries| ==> entries[i].0 != Some(host)
  {
    if entries == [] then None
    else if entries[0].0 == Some(host) then Some(entries[0].1)
    else
      var rest := ForgejoFor(entries[1..], host);
      assert forall j :: 0 < j < |entries| ==> entries[j] == entries[1..][j - 1];
      rest
  }

  function ForgeFor(c: Config, host: string, owner: string): Option<Forge> {
    var g := GithubFor(c.github, host, owner);
    if g.Some? then g else ForgejoFor(c.forgejo, host)
  }

  /** The layers that apply to repository `name` (or the namespace) of `owner` on `host`. */
  function Chain(c: Config, host: string, owner: string, name: Option<string>): seq<Option<Layer>> {
    var forge := ForgeFor(c, host, Lower(owner));
    if forge.None? then [Some(c.roleMap), None, None, None]
    else
      var f := forge.value;
      if Lower(owner) !in f.namespaces then [Some(c.roleMap), f.roleMap, None, None]
      else
        var ns := f.namespaces[Lower(owner)];
        [Some(c.roleMap), f.roleMap, ns.roleMap,
         if name.Some? && Lower(name.value) in ns.repos then ns.repos[Lower(name.value)].roleMap else None]
  }

  /** The role map of a resource; a chain that did not resolve would get the default. */
  function RoleMapOf(c: Config, host: string, owner: string, name: Option<string>): RoleMap {
    var r := Resolve(Chain(c, host, owner, name));
    if r.Ok? then r.value else DEFAULT
  }

  // ---- What a lookup means ----

  /** `g` is the entry of an App of `owner`'s on `host`. */
  ghost predicate IsAppOf(g: Forge, host: string, owner: string) {
    g.host == host && g.appOwner.Some? && Lower(g.appOwner.value) == Lower(owner)
  }

  /** The forge entry that serves `owner` on `host`: the first of an App of the owner's, or else the first Forgejo one
      of that host; or there is none. */
  ghost predicate ServedBy(c: Config, host: string, owner: string, f: Option<Forge>) {
    || (f.Some? && exists i :: 0 <= i < |c.github| && c.github[i] == f.value && IsAppOf(c.github[i], host, owner)
                               && forall j :: 0 <= j < i ==> !IsAppOf(c.github[j], host, owner))
    || ((forall i :: 0 <= i < |c.github| ==> !IsAppOf(c.github[i], host, owner))
        && if f.Some? then
             exists i :: 0 <= i < |c.forgejo| && c.forgejo[i] == (Some(host), f.value)
                         && forall j :: 0 <= j < i ==> c.forgejo[j].0 != Some(host)
           else forall i :: 0 <= i < |c.forgejo| ==> c.forgejo[i].0 != Some(host))
  }

  /** What `layer` says of `tier`, or else `role`. */
  ghost function Unless(layer: Option<Layer>, tier: Tier, role: ForgeRole): ForgeRole {
    match layer
    case None => role
    case Some(Layer(own, maintain, commit)) =>
      var word := match tier case Own => own case Maintaining => maintain case Committing => commit;
      if word.Some? then word.value else role
  }

  /** The role `tier` gets where entry `f` serves: the repository's word, or the namespace's, or the entry's, or the
      bridge's, or the default. */
  ghost function RoleFor(c: Config, f: Option<Forge>, owner: string, name: Option<string>, tier: Tier): ForgeRole {
    var default_ := match tier case Own => Admin case Maintaining => Maintain case Committing => NoRole;
    var bridge := Unless(Some(c.roleMap), tier, default_);
    if f.None? then bridge
    else
      var forge := Unless(f.value.roleMap, tier, bridge);
      if Lower(owner) !in f.value.namespaces then forge
      else
        var ns := f.value.namespaces[Lower(owner)];
        var namespace := Unless(ns.roleMap, tier, forge);
        if name.Some? && Lower(name.value) in ns.repos then Unless(ns.repos[Lower(name.value)].roleMap, tier, namespace)
        else namespace
  }

  lemma LowerTwice(s: string)
    ensures Lower(Lower(s)) == Lower(s)
  {
  }

  lemma ForgeForServes(c: Config, host: string, owner: string)
    ensures ServedBy(c, host, owner, ForgeFor(c, host, Lower(owner)))
  {
    LowerTwice(owner);
    hide Lower;
    assert forall g :: Serves(g, host, Lower(owner)) == IsAppOf(g, host, owner);
    if GithubFor(c.github, host, Lower(owner)).None? {
      forall i | 0 <= i < |c.github| ensures !IsAppOf(c.github[i], host, owner) {
        assert c.github[i] in c.github;
      }
    }
  }

  lemma OneServes(c: Config, host: string, owner: string, f: Option<Forge>, g: Option<Forge>)
    requires ServedBy(c, host, owner, f) && ServedBy(c, host, owner, g)
    ensures f == g
  {
    hide Lower;
  }

  lemma OneLayerMore(layers: seq<Option<Layer>>, l: Option<Layer>, tier: Tier, role: ForgeRole)
    ensures OrElse(Field(Merge(layers + [l]), tier), role) == Unless(l, tier, OrElse(Field(Merge(layers), tier), role))
  {
    assert (layers + [l])[..|layers|] == layers;
  }

  lemma FourLayers(a: Option<Layer>, b: Option<Layer>, c: Option<Layer>, d: Option<Layer>, tier: Tier, role: ForgeRole)
    ensures OrElse(Field(Merge([a, b, c, d]), tier), role)
         == Unless(d, tier, Unless(c, tier, Unless(b, tier, Unless(a, tier, role))))
  {
    assert [] + [a] == [a] && [a] + [b] == [a, b] && [a, b] + [c] == [a, b, c] && [a, b, c] + [d] == [a, b, c, d];
    OneLayerMore([], a, tier, role);
    OneLayerMore([a], b, tier, role);
    OneLayerMore([a, b], c, tier, role);
    OneLayerMore([a, b, c], d, tier, role);
    hide Unless;
  }

  lemma ChainMeans(c: Config, host: string, owner: string, name: Option<string>, tier: Tier)
    ensures OrElse(Field(Merge(Chain(c, host, owner, name)), tier), RoleOf(DEFAULT, tier))
         == RoleFor(c, ForgeFor(c, host, Lower(owner)), owner, name, tier)
  {
    var chain := Chain(c, host, owner, name);
    assert chain == [chain[0], chain[1], chain[2], chain[3]];
    FourLayers(chain[0], chain[1], chain[2], chain[3], tier, RoleOf(DEFAULT, tier));
    hide Merge, Lower, ForgeFor;
  }

  /** MAIN RESULT. What role each tier gets, in any configuration: that of the most specific of the repository, the
      namespace, the forge entry that serves it and the bridge to name one; or the defaults, if what they come to is
      not a map that is allowed. */
  lemma LookupMeans(c: Config, host: string, owner: string, name: Option<string>, f: Option<Forge>)
    requires ServedBy(c, host, owner, f)
    ensures var m := RoleMap(RoleFor(c, f, owner, name, Own), RoleFor(c, f, owner, name, Maintaining),
                             RoleFor(c, f, owner, name, Committing));
      RoleMapOf(c, host, owner, name) == if Allowed(m) then m else RoleMap(Admin, Maintain, NoRole)
  {
    ForgeForServes(c, host, owner);
    OneServes(c, host, owner, f, ForgeFor(c, host, Lower(owner)));
    ChainMeans(c, host, owner, name, Own);
    ChainMeans(c, host, owner, name, Maintaining);
    ChainMeans(c, host, owner, name, Committing);
    hide Chain, Merge, ForgeFor, RoleFor, ServedBy;
  }

  // ---- Validation ----

  ghost predicate Resolves(layers: seq<Option<Layer>>) {
    Resolve(layers).Ok?
  }

  ghost predicate ReposSound(base: Layer, forge: Option<Layer>, ns: NamespaceConfig) {
    forall name :: name in ns.repos ==>
      name == Lower(name) && Resolves([Some(base), forge, ns.roleMap, ns.repos[name].roleMap])
  }

  ghost predicate NamespaceSound(base: Layer, forge: Option<Layer>, owner: string, ns: NamespaceConfig) {
    owner == Lower(owner) && Resolves([Some(base), forge, ns.roleMap]) && ReposSound(base, forge, ns)
  }

  ghost predicate ForgeSound(base: Layer, f: Forge) {
    Resolves([Some(base), f.roleMap])
    && forall owner :: owner in f.namespaces ==> NamespaceSound(base, f.roleMap, owner, f.namespaces[owner])
  }

  /** Every key is lower-case and every chain of layers the configuration holds resolves. */
  ghost predicate Sound(c: Config) {
    && Resolves([Some(c.roleMap)])
    && (forall i :: 0 <= i < |c.github| ==> ForgeSound(c.roleMap, c.github[i]))
    && (forall i :: 0 <= i < |c.forgejo| ==> c.forgejo[i].0.Some? && ForgeSound(c.roleMap, c.forgejo[i].1))
  }

  method CheckRepos(base: Layer, forge: Option<Layer>, ns: NamespaceConfig) returns (ok: bool)
    ensures ok <==> ReposSound(base, forge, ns)
  {
    var todo := ns.repos.Keys;
    while todo != {}
      invariant todo <= ns.repos.Keys
      invariant forall name :: name in ns.repos && name !in todo ==>
        name == Lower(name) && Resolves([Some(base), forge, ns.roleMap, ns.repos[name].roleMap])
    {
      var name :| name in todo;
      todo := todo - {name};
      if name != Lower(name) {
        return false;
      }
      if Resolve([Some(base), forge, ns.roleMap, ns.repos[name].roleMap]).Err? {
        return false;
      }
    }
    ok := true;
  }

  method CheckForge(base: Layer, f: Forge) returns (ok: bool)
    ensures ok <==> ForgeSound(base, f)
  {
    if Resolve([Some(base), f.roleMap]).Err? {
      return false;
    }
    var todo := f.namespaces.Keys;
    while todo != {}
      invariant todo <= f.namespaces.Keys
      invariant forall owner :: owner in f.namespaces && owner !in todo ==>
        NamespaceSound(base, f.roleMap, owner, f.namespaces[owner])
    {
      var owner :| owner in todo;
      todo := todo - {owner};
      var ns := f.namespaces[owner];
      if owner != Lower(owner) || Resolve([Some(base), f.roleMap, ns.roleMap]).Err? {
        return false;
      }
      var repos := CheckRepos(base, f.roleMap, ns);
      if !repos {
        return false;
      }
    }
    ok := true;
  }

  /** Whether a lookup can never fail: keys as they are looked up, and each chain of layers one that resolves. */
  method ValidateRoleMaps(c: Config) returns (ok: bool)
    ensures ok <==> Sound(c)
  {
    if Resolve([Some(c.roleMap)]).Err? {
      return false;
    }
    for i := 0 to |c.github|
      invariant forall j :: 0 <= j < i ==> ForgeSound(c.roleMap, c.github[j])
    {
      ok := CheckForge(c.roleMap, c.github[i]);
      if !ok {
        return;
      }
    }
    for i := 0 to |c.forgejo|
      invariant forall j :: 0 <= j < i ==> c.forgejo[j].0.Some? && ForgeSound(c.roleMap, c.forgejo[j].1)
    {
      if c.forgejo[i].0.None? {
        return false;
      }
      ok := CheckForge(c.roleMap, c.forgejo[i].1);
      if !ok {
        return;
      }
    }
    ok := true;
  }

  // ---- Validation covers every lookup ----

  /** Layers that set nothing at the end change nothing. */
  lemma TrailingNothing(layers: seq<Option<Layer>>)
    ensures Resolve(layers + [None]) == Resolve(layers)
  {
    assert (layers + [None])[..|layers|] == layers;
  }

  lemma ServingForgeIsSound(c: Config, host: string, owner: string)
    requires Sound(c) && ForgeFor(c, host, owner).Some?
    ensures ForgeSound(c.roleMap, ForgeFor(c, host, owner).value)
  {
    var g := GithubFor(c.github, host, owner);
    if g.Some? {
      var i :| 0 <= i < |c.github| && c.github[i] == g.value;
    } else {
      var f := ForgejoFor(c.forgejo, host);
      var i :| 0 <= i < |c.forgejo| && c.forgejo[i] == (Some(host), f.value);
    }
  }

  lemma ChainResolves(c: Config, host: string, owner: string, name: Option<string>)
    requires Sound(c)
    ensures Resolves(Chain(c, host, owner, name))
  {
    hide Resolve, Merge, Lower;
    var base, chain := Some(c.roleMap), Chain(c, host, owner, name);
    var forge := ForgeFor(c, host, Lower(owner));
    if forge.None? {
      TrailingNothing([base]);
      TrailingNothing([base, None]);
      TrailingNothing([base, None, None]);
      assert [base] + [None] == [base, None] && [base, None] + [None] == [base, None, None];
      assert [base, None, None] + [None] == chain;
    } else {
      ServingForgeIsSound(c, host, Lower(owner));
      var f := forge.value;
      if Lower(owner) !in f.namespaces {
        TrailingNothing([base, f.roleMap]);
        TrailingNothing([base, f.roleMap, None]);
        assert [base, f.roleMap] + [None] == [base, f.roleMap, None] && [base, f.roleMap, None] + [None] == chain;
      } else {
        var ns := f.namespaces[Lower(owner)];
        assert NamespaceSound(c.roleMap, f.roleMap, Lower(owner), ns);
        TrailingNothing([base, f.roleMap, ns.roleMap]);
        assert [base, f.roleMap, ns.roleMap] + [None] == [base, f.roleMap, ns.roleMap, None];
      }
    }
  }

  /** MAIN RESULT. In a configuration validation accepts, the layers of any resource at all resolve, so the
      lookup's fallback is never taken: each tier gets the most specific word there is, and the map is allowed. */
  lemma ValidationCoversEveryLookup(c: Config, host: string, owner: string, name: Option<string>, f: Option<Forge>)
    requires Sound(c) && ServedBy(c, host, owner, f)
    ensures RoleMapOf(c, host, owner, name)
         == RoleMap(RoleFor(c, f, owner, name, Own), RoleFor(c, f, owner, name, Maintaining),
                    RoleFor(c, f, owner, name, Committing))
    ensures Allowed(RoleMapOf(c, host, owner, name))
  {
    ChainResolves(c, host, owner, name);
    ForgeForServes(c, host, owner);
    OneServes(c, host, owner, f, ForgeFor(c, host, Lower(owner)));
    ChainMeans(c, host, owner, name, Own);
    ChainMeans(c, host, owner, name, Maintaining);
    ChainMeans(c, host, owner, name, Committing);
    hide Chain, Merge, ForgeFor, RoleFor, ServedBy, Sound;
  }
}
