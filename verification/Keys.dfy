/** The remote's key space (crates/vgi-bridge/src/appstate.rs): which records a text key names, the order
    the keys are visited in, and the associated data a secret is sealed under. The rest of the model
    works on `Key`; the lemmas here say that loses nothing against the text keys. */
module Keys {
  import opened Wrappers

  /** The mirrored tables. */
  datatype Table = Namespaces | Repos | Branches | Meta

  datatype Key =
    | LeaseKey
    | SecretKey(name: string)
    | StateKey(table: Table, local: string)
    | ForeignKey(text: string)

  const LEASE := "lease/writer"
  const SECRET := "secret/"
  const STATE := "state/"
  /** The one record of a mirrored table that belongs to this host's cache. */
  const BINDING_META := "vta/binding"

  function TableName(t: Table): (name: string)
    ensures '/' !in name
  {
    match t case Namespaces => "namespaces" case Repos => "repos" case Branches => "branches" case Meta => "meta"
  }

  function TableNamed(name: string): (t: Option<Table>)
    ensures t.Some? ==> TableName(t.value) == name
    ensures forall u :: TableName(u) == name ==> t == Some(u)
  {
    if name == TableName(Namespaces) then Some(Namespaces)
    else if name == TableName(Repos) then Some(Repos)
    else if name == TableName(Branches) then Some(Branches)
    else if name == TableName(Meta) then Some(Meta)
    else None
  }

  predicate RecordIsMirrored(t: Table, local: string) {
    !(t == Meta && local == BINDING_META)
  }

  predicate SecretIsMirrored(name: string) {
    !("pending/" <= name)
  }

  /** The text of a key. */
  function Render(k: Key): string {
    match k
    case LeaseKey => LEASE
    case SecretKey(name) => SECRET + name
    case StateKey(t, local) => STATE + TableName(t) + "/" + local
    case ForeignKey(text) => text
  }

  /** `s` up to its first slash and after it. */
  function SplitOnce(s: string): (r: Option<(string, string)>)
    ensures r.None? <==> '/' !in s
    ensures r.Some? ==> s == r.value.0 + "/" + r.value.1 && '/' !in r.value.0
  {
    if |s| == 0 then None
    else if s[0] == '/' then Some(("", s[1..]))
    else match SplitOnce(s[1..])
      case None => None
      case Some((head, tail)) => Some(([s[0]] + head, tail))
  }

  function ParseStateKey(text: string): Option<(Table, string)> {
    if !(STATE <= text) then None
    else match SplitOnce(text[|STATE|..])
      case None => None
      case Some((name, local)) =>
        var t := TableNamed(name);
        if t.Some? && RecordIsMirrored(t.value, local) then Some((t.value, local)) else None
  }

  /** What a text key names, in the order `pull` asks. */
  function Parse(text: string): Key {
    if text == LEASE then LeaseKey
    else if SECRET <= text then SecretKey(text[|SECRET|..])
    else match ParseStateKey(text)
      case Some((t, local)) => StateKey(t, local)
      case None => ForeignKey(text)
  }

  /** The keys a text can name. */
  predicate Canonical(k: Key) {
    match k
    case LeaseKey => true
    case SecretKey(_) => true
    case StateKey(t, local) => RecordIsMirrored(t, local)
    case ForeignKey(text) => Parse(text) == k
  }

  lemma {:induction false} SplitOnceOf(head: string, tail: string)
    requires '/' !in head
    ensures SplitOnce(head + "/" + tail) == Some((head, tail))
  {
    var s := head + "/" + tail;
    if |head| == 0 {
      assert s[1..] == tail;
    } else {
      assert s[1..] == head[1..] + "/" + tail;
      SplitOnceOf(head[1..], tail);
      assert [head[0]] + head[1..] == head;
    }
  }

  lemma RenderParseSecret(name: string)
    ensures Parse(Render(SecretKey(name))) == SecretKey(name)
  {
    var text := SECRET + name;
    assert text[0] == 's' && text[|SECRET|..] == name;
  }

  lemma StateText(name: string, local: string)
    ensures var text := STATE + name + "/" + local;
            text[0] == 's' && text[1] == 't' && STATE <= text && text[|STATE|..] == name + "/" + local
  {
    assert STATE + name + "/" + local == STATE + (name + "/" + local);
  }

  lemma ParseStateText(name: string, local: string)
    requires '/' !in name && TableNamed(name).Some? && RecordIsMirrored(TableNamed(name).value, local)
    ensures Parse(STATE + name + "/" + local) == StateKey(TableNamed(name).value, local)
  {
    StateText(name, local);
    SplitOnceOf(name, local);
    assert SECRET[1] == 'e' && LEASE[0] == 'l';
  }

  /** Rendering and parsing are inverse: two keys never share a text, and every text is some key. */
  lemma RenderParse(k: Key)
    requires Canonical(k)
    ensures Parse(Render(k)) == k
  {
    match k
    case LeaseKey =>
    case SecretKey(name) => RenderParseSecret(name);
    case StateKey(t, local) => ParseStateText(TableName(t), local);
    case ForeignKey(_) =>
  }

  lemma ParseRender(text: string)
    ensures Render(Parse(text)) == text && Canonical(Parse(text))
  {
    if text != LEASE && !(SECRET <= text) && ParseStateKey(text).Some? {
      StateKeyText(text);
    }
    hide ParseStateKey;
  }

  lemma StateKeyText(text: string)
    requires ParseStateKey(text).Some?
    ensures var (t, local) := ParseStateKey(text).value;
      text == STATE + TableName(t) + "/" + local && RecordIsMirrored(t, local)
  {
    var rest := text[|STATE|..];
    var (name, local) := SplitOnce(rest).value;
    assert text == STATE + rest;
    assert STATE + name + "/" + local == STATE + (name + "/" + local);
  }

  lemma OwnRecordText(local: string)
    requires local == BINDING_META
    ensures Parse(STATE + TableName(Meta) + "/" + local) == ForeignKey(STATE + TableName(Meta) + "/" + local)
  {
    StateText(TableName(Meta), local);
    SplitOnceOf(TableName(Meta), local);
    hide SplitOnce;
    assert SECRET[1] == 'e' && LEASE[0] == 'l';
  }

  /** Which text names what: the writer's lease, a secret, or a record of a table, save the host's own binding. */
  lemma TextsName(t: Table, name: string, table: string)
    requires table == match t case Namespaces => "namespaces" case Repos => "repos" case Branches => "branches"
                              case Meta => "meta"
    ensures Parse("lease/writer") == LeaseKey
    ensures Parse("secret/" + name) == SecretKey(name)
    ensures var text := "state/" + table + "/" + name;
      Parse(text) == if t == Meta && name == "vta/binding" then ForeignKey(text) else StateKey(t, name)
  {
    RenderParseSecret(name);
    if RecordIsMirrored(t, name) {
      ParseStateText(TableName(t), name);
    } else {
      OwnRecordText(name);
    }
    hide ParseStateKey;
  }

  // ---- The order of a sorted map ----

  /** `a` comes strictly before `b`, as strings sort. */
  predicate Before(a: string, b: string) {
    if |b| == 0 then false
    else if |a| == 0 then true
    else a[0] < b[0] || (a[0] == b[0] && Before(a[1..], b[1..]))
  }

  lemma {:induction false} BeforeIsTotal(a: string, b: string)
    ensures a == b || Before(a, b) || Before(b, a)
  {
    if |a| > 0 && |b| > 0 && a[0] == b[0] {
      BeforeIsTotal(a[1..], b[1..]);
      assert a == [a[0]] + a[1..] && b == [b[0]] + b[1..];
    }
  }

  lemma {:induction false} BeforeIsTransitive(a: string, b: string, c: string)
    requires Before(a, b) && Before(b, c)
    ensures Before(a, c)
  {
    if |a| > 0 && a[0] == b[0] && b[0] == c[0] {
      BeforeIsTransitive(a[1..], b[1..], c[1..]);
    }
  }

  /** `k` is the first of `keys` in text order. */
  predicate IsFirst(k: Key, keys: set<Key>) {
    k in keys && forall other :: other in keys && other != k ==> Before(Render(k), Render(other))
  }

  lemma {:induction false} FirstExists(keys: set<Key>) returns (k: Key)
    requires keys != {} && forall k :: k in keys ==> Canonical(k)
    ensures IsFirst(k, keys)
    decreases keys
  {
    k :| k in keys;
    var rest := keys - {k};
    assert forall other :: other in keys && other != k ==> other in rest;
    if rest != {} {
      var f := FirstExists(rest);
      BeforeIsTotal(Render(k), Render(f));
      RenderParse(k);
      RenderParse(f);
      forall other | other in keys && other != k && Before(Render(k), Render(f))
        ensures Before(Render(k), Render(other))
      {
        if other != f {
          BeforeIsTransitive(Render(k), Render(f), Render(other));
        }
      }
      if !Before(Render(k), Render(f)) {
        k := f;
      }
    }
  }

  /** Every secret is visited before any mirrored record. */
  lemma SecretsComeFirst(name: string, t: Table, local: string)
    ensures Before(Render(SecretKey(name)), Render(StateKey(t, local)))
    ensures !Before(Render(StateKey(t, local)), Render(SecretKey(name)))
  {
    var a, b := Render(SecretKey(name)), Render(StateKey(t, local));
    assert a[0] == b[0] == 's' && a[1] == 'e' && b[1] == 't';
    assert a[1..][0] == a[1] && b[1..][0] == b[1];
  }

  /** Once a record comes first, no secret is left. */
  lemma NoSecretsAfterRecords(key: Key, keys: set<Key>)
    requires IsFirst(key, keys) && key.StateKey?
    ensures forall k :: k in keys ==> !k.SecretKey?
  {
    forall k | k in keys && k.SecretKey? ensures false {
      SecretsComeFirst(k.name, key.table, key.local);
    }
  }

  // ---- What a secret is sealed under ----

  const DIGITS := "0123456789"

  function Decimal(n: nat): (s: string)
    ensures |s| > 0 && '@' !in s
  {
    if n < 10 then [DIGITS[n]] else Decimal(n / 10) + [DIGITS[n % 10]]
  }

  lemma {:induction false} DecimalInjective(m: nat, n: nat)
    requires Decimal(m) == Decimal(n)
    ensures m == n
  {
    var s := Decimal(m);
    assert s[|s| - 1] == DIGITS[m % 10] == DIGITS[n % 10];
    if m >= 10 && n >= 10 {
      assert Decimal(m / 10) == s[..|s| - 1] == Decimal(n / 10);
      DecimalInjective(m / 10, n / 10);
    }
  }

  /** What a secret is bound to when it is sealed: the record's key, and the version it will have. */
  function SecretAad(name: string, version: nat): string {
    Render(SecretKey(name)) + "@" + Decimal(version)
  }

  lemma LastSeparator(a: string, d: string, a': string, d': string)
    requires '@' !in d && '@' !in d' && a + "@" + d == a' + "@" + d'
    ensures a == a' && d == d'
  {
    var s := a + "@" + d;
    assert s[|a|] == '@' && s[|a'|] == '@';
    assert forall i :: |a| < i < |s| ==> s[i] == d[i - |a| - 1] && s[i] in d;
    assert forall i :: |a'| < i < |s| ==> s[i] == d'[i - |a'| - 1] && s[i] in d';
    assert |a| == |a'|;
    assert a == s[..|a|] == a' && d == s[|a| + 1..] == d';
  }

  /** Two secrets sealed under the same data have the same name and version, whatever the names hold. */
  lemma SecretAadInjective(name: string, version: nat, name': string, version': nat)
    requires SecretAad(name, version) == SecretAad(name', version')
    ensures name == name' && version == version'
  {
    LastSeparator(SECRET + name, Decimal(version), SECRET + name', Decimal(version'));
    DecimalInjective(version, version');
    assert name == (SECRET + name)[|SECRET|..] && name' == (SECRET + name')[|SECRET|..];
  }
}
