/**
 Secret routing of an adopted entry's environment: shell references become hub references,
 sensitive literals move into the vault and leave a `secret:` reference behind.
 */
module SecretRoute {
  import opened Wrappers

  // ---- text ----

  predicate Space(c: char) {
    || '\t' <= c <= '\r' || c == ' ' || c == '\U{0085}' || c == '\U{00A0}' || c == '\U{1680}'
    || '\U{2000}' <= c <= '\U{200A}' || c == '\U{2028}' || c == '\U{2029}' || c == '\U{202F}' || c == '\U{205F}'
    || c == '\U{3000}'
  }

  function TrimLeft(s: string): string {
    if s != [] && Space(s[0]) then TrimLeft(s[1..]) else s
  }

  function TrimRight(s: string): string {
    if s != [] && Space(s[|s| - 1]) then TrimRight(s[..|s| - 1]) else s
  }

  function Trim(s: string): string {
    TrimRight(TrimLeft(s))
  }

  predicate Letter(c: char) {
    'a' <= c <= 'z' || 'A' <= c <= 'Z'
  }

  predicate Name(s: string) {
    && s != [] && (Letter(s[0]) || s[0] == '_')
    && forall i :: 0 <= i < |s| ==> Letter(s[i]) || '0' <= s[i] <= '9' || s[i] == '_'
  }

  // $NAME or ${NAME}
  function ShellName(value: string): Option<string> {
    var t := Trim(value);
    if |t| > 1 && t[0] == '$' && Name(t[1..]) then Some(t[1..])
    else if |t| > 3 && t[..2] == "${" && t[|t| - 1] == '}' && Name(t[2..|t| - 1]) then Some(t[2..|t| - 1])
    else None
  }

  predicate SecretPrefixed(value: string) {
    "secret:" <= Trim(value)
  }

  predicate Literal(value: string) {
    ShellName(Trim(value)).None? && !("secret:" <= Trim(value)) && !("${env:" <= Trim(value))
  }

  lemma {:induction false} TrimRightKeepsHead(s: string)
    requires s != [] && !Space(s[0])
    ensures TrimRight(s) != [] && TrimRight(s)[0] == s[0]
  {
    if Space(s[|s| - 1]) {
      TrimRightKeepsHead(s[..|s| - 1]);
    }
  }

  predicate Blank(s: string) {
    forall i :: 0 <= i < |s| ==> Space(s[i])
  }

  // core is value without the blanks around it.
  ghost predicate Core(value: string, core: string) {
    && (core != [] ==> !Space(core[0]) && !Space(core[|core| - 1]))
    && exists a, b :: Blank(a) && Blank(b) && value == a + core + b
  }

  lemma {:induction false} TrimLeftDrops(a: string, s: string)
    requires Blank(a) && (s != [] ==> !Space(s[0]))
    ensures TrimLeft(a + s) == s
  {
    if a == [] {
      assert a + s == s;
    } else {
      assert (a + s)[0] == a[0] && (a + s)[1..] == a[1..] + s;
      TrimLeftDrops(a[1..], s);
    }
  }

  lemma {:induction false} TrimRightDrops(s: string, b: string)
    requires Blank(b) && (s != [] ==> !Space(s[|s| - 1]))
    ensures TrimRight(s + b) == s
  {
    if b == [] {
      assert s + b == s;
    } else {
      assert (s + b)[|s + b| - 1] == b[|b| - 1] && (s + b)[..|s + b| - 1] == s + b[..|b| - 1];
      TrimRightDrops(s, b[..|b| - 1]);
    }
  }

  /** Trimming finds the one text between the blanks. */
  lemma TrimIsCore(value: string, core: string)
    requires Core(value, core)
    ensures Trim(value) == core
  {
    var a, b :| Blank(a) && Blank(b) && value == a + core + b;
    if core == [] {
      assert Blank(a + b) && value == (a + b) + [];
      TrimLeftDrops(a + b, []);
    } else {
      assert value == a + (core + b);
      TrimLeftDrops(a, core + b);
      TrimRightDrops(core, b);
    }
  }

  // ---- the vault key ----

  // The source works byte by byte: a character outside ASCII gives one underscore per UTF-8 byte.
  function Utf8Length(c: char): (n: nat)
    ensures n >= 1
  {
    if c < '\U{0080}' then 1 else if c < '\U{0800}' then 2 else if c <= '\U{FFFF}' then 3 else 4
  }

  function SanitizeChar(c: char): (s: string)
    ensures forall i :: 0 <= i < |s| ==> KeyChar(s[i])
  {
    if 'a' <= c <= 'z' then [(c as int - 'a' as int + 'A' as int) as char]
    else if 'A' <= c <= 'Z' || '0' <= c <= '9' || c == '_' then [c]
    else seq(Utf8Length(c), i => '_')
  }

  predicate KeyChar(c: char) {
    'A' <= c <= 'Z' || '0' <= c <= '9' || c == '_'
  }

  function Sanitize(s: string): (r: string)
    ensures forall i :: 0 <= i < |r| ==> KeyChar(r[i])
  {
    if s == [] then [] else Sanitize(s[..|s| - 1]) + SanitizeChar(s[|s| - 1])
  }

  function Upper(c: char): char {
    if 'a' <= c <= 'z' then (c as int - 32) as char else c
  }

  /** On ASCII text a key has one character per character: the upper-case letter, the digit or the
      underscore it was, and an underscore for anything else. */
  lemma {:induction false} SanitizeIsPointwise(s: string, i: nat)
    requires i < |s| && forall k :: 0 <= k < |s| ==> s[k] < '\U{0080}'
    ensures |Sanitize(s)| == |s|
    ensures Sanitize(s)[i] == if KeyChar(Upper(s[i])) then Upper(s[i]) else '_'
  {
    if |s| > 1 {
      SanitizeIsPointwise(s[..|s| - 1], if i < |s| - 1 then i else 0);
    }
  }

  lemma {:induction false} SanitizeKeeps(s: string)
    requires forall k :: 0 <= k < |s| ==> KeyChar(s[k])
    ensures Sanitize(s) == s
  {
    if s != [] {
      SanitizeKeeps(s[..|s| - 1]);
    }
  }

  /** Names that are already keys keep their text in the vault key. */
  lemma VaultKeyKeepsKeys(manifest: string, name: string)
    requires manifest != [] && 'A' <= manifest[0] <= 'Z'
    requires forall k :: 0 <= k < |manifest| ==> KeyChar(manifest[k])
    requires forall k :: 0 <= k < |name| ==> KeyChar(name[k])
    ensures VaultKey(manifest, name) == manifest + "_" + name
  {
    assert Sanitize(manifest) + ['_'] + Sanitize(name) == manifest + "_" + name by {
      SanitizeKeeps(manifest);
      SanitizeKeeps(name);
    }
    assert (manifest + "_" + name)[0] == manifest[0];
  }

  method AppendSanitized(b: string, s: string) returns (r: string)
    ensures r == b + Sanitize(s)
  {
    r := b;
    for i := 0 to |s|
      invariant r == b + Sanitize(s[..i])
    {
      assert s[..i + 1][..i] == s[..i];
      r := r + SanitizeChar(s[i]);
    }
    assert s[..|s|] == s;
  }

  function VaultKey(manifest: string, name: string): string {
    Prefixed(Sanitize(manifest) + ['_'] + Sanitize(name))
  }

  function Prefixed(key: string): string {
    if key != [] && 'A' <= key[0] <= 'Z' then key else "MCP_" + key
  }

  method BuildVaultKey(manifest: string, name: string) returns (key: string)
    ensures key == VaultKey(manifest, name)
  {
    var b: string := [];
    b := AppendSanitized(b, manifest);
    assert b == Sanitize(manifest);
    b := AppendSanitized(b + ['_'], name);
    key := b;
    if b == [] || b[0] < 'A' || b[0] > 'Z' {
      key := "MCP_" + b;
    }
  }

  // What `secrets set` and `secrets rotate` accept.
  predicate Settable(key: string) {
    && key != [] && Letter(key[0])
    && forall i :: 0 <= i < |key| ==> Letter(key[i]) || '0' <= key[i] <= '9' || key[i] == '_'
  }

  /** Every derived key can be managed by the secrets commands, whatever the names were. */
  lemma VaultKeyIsSettable(manifest: string, name: string)
    ensures Settable(VaultKey(manifest, name))
  {
    var key := Sanitize(manifest) + ['_'] + Sanitize(name);
    assert forall i :: 0 <= i < |key| ==> KeyChar(key[i]);
  }

  // ---- routing ----

  predicate Routed(sensitive: string -> bool, name: string, value: string) {
    ShellName(value).None? && (SecretPrefixed(value) || (sensitive(name) && Literal(value)))
  }

  function Rewritten(sensitive: string -> bool, manifest: string, name: string, value: string): string {
    if ShellName(value).Some? then "${env:" + ShellName(value).value + "}"
    else if Routed(sensitive, name, value) then "secret:" + VaultKey(manifest, name)
    else value
  }

  // What happens to one variable: its new value and, when it is routed, its vault key.
  datatype Treatment = Treatment(value: string, key: Option<string>)
  type Router = (string, string) -> Treatment

  function RouterOf(sensitive: string -> bool, manifest: string): Router {
    (name, value) => Treatment(Rewritten(sensitive, manifest, name, value),
                               if Routed(sensitive, name, value) then Some(VaultKey(manifest, name)) else None)
  }

  function Treated(r: Router, vars: map<string, string>, name: string): Treatment
    requires name in vars
  {
    r(name, vars[name])
  }

  ghost predicate RoutedTo(r: Router, vars: map<string, string>, name: string, key: string) {
    name in vars && Treated(r, vars, name).key == Some(key)
  }

  ghost predicate Collides(r: Router, vars: map<string, string>, a: string, b: string, key: string) {
    a != b && RoutedTo(r, vars, a, key) && RoutedTo(r, vars, b, key)
  }

  ghost predicate Distinct(s: seq<string>) {
    forall i, j :: 0 <= i < j < |s| ==> s[i] != s[j]
  }

  ghost predicate Enumerates(names: seq<string>, vars: map<string, string>) {
    Distinct(names) && forall n :: n in names <==> n in vars
  }

  ghost predicate RewrittenTo(r: Router, was: map<string, string>, now: map<string, string>, done: set<string>) {
    && now.Keys == was.Keys
    && forall n :: n in now ==> now[n] == if n in done then Treated(r, was, n).value else was[n]
  }

  // `values` holds the routed originals under their vault keys, and nothing else.
  ghost predicate HoldsRouted(r: Router, vars: map<string, string>, values: map<string, string>) {
    && (forall n, k :: RoutedTo(r, vars, n, k) ==> k in values && values[k] == vars[n])
    && forall k :: k in values ==> exists n :: RoutedTo(r, vars, n, k)
  }

  // After the names in `done`: `from` names the one variable behind each vault key.
  ghost predicate Progress(r: Router, was: map<string, string>, done: set<string>, from: map<string, string>,
                           values: map<string, string>) {
    && from.Keys == values.Keys
    && (forall n, k :: n in done && RoutedTo(r, was, n, k) ==> k in from && from[k] == n)
    && forall k :: k in from ==> from[k] in done && RoutedTo(r, was, from[k], k) && values[k] == was[from[k]]
  }

  class Environment {
    var vars: map<string, string>

    constructor (v: map<string, string>)
      ensures vars == v
    {
      vars := v;
    }

    /** Rewrites every variable, or refuses exactly when two routed names share a vault key. */
    method Rewrite(r: Router, names: seq<string>)
      returns (ok: bool, routedKeys: seq<string>, values: map<string, string>)
      requires Enumerates(names, vars)
      modifies this
      ensures vars.Keys == old(vars.Keys)
      ensures ok <==> forall a, b, k :: !Collides(r, old(vars), a, b, k)
      ensures ok ==> RewrittenTo(r, old(vars), vars, old(vars.Keys)) && HoldsRouted(r, old(vars), values)
      ensures ok ==> Distinct(routedKeys) && forall k :: k in routedKeys <==> k in values
    {
      ghost var was, done: set<string> := vars, {};
      routedKeys, values := [], map[];
      var from: map<string, string> := map[];
      for i := 0 to |names|
        invariant done == Prefix(names, i) && RewrittenTo(r, was, vars, done)
        invariant Progress(r, was, done, from, values)
        invariant Distinct(routedKeys) && forall k :: k in routedKeys <==> k in values
      {
        var name := names[i];
        PrefixGrows(names, i);
        var value := vars[name];
        var t := r(name, value);
        if t.key.Some? {
          if t.key.value in from {
            assert Collides(r, was, from[t.key.value], name, t.key.value);
            return false, [], map[];
          }
          ProgressAdds(r, was, done, from, values, name, t.key.value);
          from := from[t.key.value := name];
          values := values[t.key.value := value];
          routedKeys := routedKeys + [t.key.value];
        } else {
          ProgressSkips(r, was, done, from, values, name);
        }
        RewriteAdds(r, was, vars, done, name);
        vars, done := vars[name := t.value], done + {name};
      }
      assert done == was.Keys;
      ProgressIsComplete(r, was, from, values);
      ok := true;
    }
  }

  ghost function Prefix(names: seq<string>, i: nat): set<string>
    requires i <= |names|
  {
    set k | 0 <= k < i :: names[k]
  }

  lemma PrefixGrows(names: seq<string>, i: nat)
    requires i < |names| && Distinct(names)
    ensures names[i] !in Prefix(names, i) && Prefix(names, i + 1) == Prefix(names, i) + {names[i]}
  {
  }

  lemma RewriteAdds(r: Router, was: map<string, string>, now: map<string, string>, done: set<string>, name: string)
    requires RewrittenTo(r, was, now, done) && name in was && name !in done
    ensures RewrittenTo(r, was, now[name := Treated(r, was, name).value], done + {name})
  {
  }

  lemma ProgressSkips(r: Router, was: map<string, string>, done: set<string>, from: map<string, string>,
                      values: map<string, string>,
                      name: string)
    requires Progress(r, was, done, from, values) && name in was && Treated(r, was, name).key.None?
    ensures Progress(r, was, done + {name}, from, values)
  {
  }

  lemma ProgressAdds(r: Router, was: map<string, string>, done: set<string>, from: map<string, string>,
                     values: map<string, string>,
                     name: string, key: string)
    requires Progress(r, was, done, from, values) && RoutedTo(r, was, name, key) && key !in from
    ensures Progress(r, was, done + {name}, from[key := name], values[key := was[name]])
  {
  }

  lemma ProgressIsComplete(r: Router, was: map<string, string>, from: map<string, string>, values: map<string, string>)
    requires Progress(r, was, was.Keys, from, values)
    ensures HoldsRouted(r, was, values)
    ensures forall a, b, k :: !Collides(r, was, a, b, k)
  {
    forall k | k in values ensures exists n :: RoutedTo(r, was, n, k) {
      assert RoutedTo(r, was, from[k], k);
    }
  }

  // ---- what the rewriting means ----

  lemma RewrittenHead(sensitive: string -> bool, manifest: string, name: string, value: string)
    ensures SecretPrefixed(Rewritten(sensitive, manifest, name, value)) <==> Routed(sensitive, name, value)
  {
    var r := Rewritten(sensitive, manifest, name, value);
    if ShellName(value).Some? {
      assert r[0] == '$';
      assert TrimLeft(r) == r;
      TrimRightKeepsHead(r);
      assert Trim(r)[0] == '$';
    } else if Routed(sensitive, name, value) {
      SecretRefIsPrefixed(VaultKey(manifest, name));
    }
  }

  lemma SecretRefIsPrefixed(key: string)
    ensures SecretPrefixed("secret:" + key)
  {
    var r := "secret:" + key;
    assert r[0] == 's' && TrimLeft(r) == r;
    TrimRightKeepsPrefix(r, 7);
    assert r[..7] == "secret:";
  }

  lemma {:induction false} TrimRightKeepsPrefix(s: string, n: nat)
    requires 0 < n <= |s| && !Space(s[n - 1])
    ensures s[..n] <= TrimRight(s)
  {
    if Space(s[|s| - 1]) {
      TrimRightKeepsPrefix(s[..|s| - 1], n);
      assert s[..|s| - 1][..n] == s[..n];
    }
  }

  // A shell reference to n.
  predicate ShellForm(core: string, n: string) {
    Name(n) && (core == "$" + n || core == "${" + n + "}")
  }

  lemma ShellNameExactly(value: string, core: string, n: string)
    requires Core(value, core)
    ensures ShellForm(core, n) <==> ShellName(value) == Some(n)
  {
    TrimIsCore(value, core);
    var t := Trim(value);
    if t == "$" + n { assert t[1..] == n; }
    if t == "${" + n + "}" {
      assert t[..2] == "${" && t[2..|t| - 1] == n;
      assert t[1] == '{' && t[1..][0] == '{' && !Name(t[1..]);
    }
    if ShellName(value) == Some(n) {
      if |t| > 1 && t[0] == '$' && Name(t[1..]) {
        assert t == [t[0]] + t[1..];
      } else {
        assert t == t[..2] + t[2..|t| - 1] + [t[|t| - 1]];
      }
    }
  }

  lemma SecretIsNoShell(value: string, core: string)
    requires Core(value, core) && core != [] && core[0] != '$'
    ensures ShellName(value).None?
  {
    TrimIsCore(value, core);
  }

  lemma HubRefIsNoShell(value: string, core: string)
    requires Core(value, core) && "${env:" <= core
    ensures ShellName(value).None?
  {
    TrimIsCore(value, core);
    var t := Trim(value);
    assert t[..6] == "${env:" && t[5] == ':' && t[1] == '{';
    assert t[1..][0] == '{';
    if |t| > 6 { assert t[2..|t| - 1][3] == ':'; }
  }

  // The five kinds of values, by their text alone, and what becomes of each.
  ghost predicate TreatedRight(sensitive: string -> bool, manifest: string, name: string, core: string, value: string,
                               t: Treatment) {
    var key := VaultKey(manifest, name);
    var routed := Treatment("secret:" + key, Some(key));
    && (forall n :: ShellForm(core, n) ==> t == Treatment("${env:" + n + "}", None))
    && ("secret:" <= core ==> t == routed)
    && ("${env:" <= core ==> t == Treatment(value, None))
    && (!("secret:" <= core) && !("${env:" <= core) && (forall n :: !ShellForm(core, n)) ==>
          t == if sensitive(name) then routed else Treatment(value, None))
  }

  /** Which variables are routed, in terms of the text between the blanks: a shell reference
      becomes a hub reference, a secret reference always moves to the vault, a hub reference
      stays, and any other value moves exactly when its name is sensitive. */
  lemma RouterExactly(sensitive: string -> bool, manifest: string, name: string, value: string, core: string)
    requires Core(value, core)
    ensures TreatedRight(sensitive, manifest, name, core, value, RouterOf(sensitive, manifest)(name, value))
  {
    TrimIsCore(value, core);
    forall n ensures ShellForm(core, n) <==> ShellName(value) == Some(n) { ShellNameExactly(value, core, n); }
    if ShellName(value).Some? { assert ShellForm(core, ShellName(value).value); }
    if "secret:" <= core {
      assert core[0] == "secret:"[0];
      SecretIsNoShell(value, core);
    }
    if "${env:" <= core {
      assert core[0] == "${env:"[0];
      HubRefIsNoShell(value, core);
    }
    CoreIsItsOwn(value, core);
  }

  lemma CoreIsItsOwn(value: string, core: string)
    requires Core(value, core)
    ensures Trim(core) == core
  {
    var none: string := [];
    assert Blank(none) && core == none + core + none;
    TrimIsCore(core, core);
  }

  // Every value has a core: what trimming leaves.
  lemma TrimCore(value: string)
    ensures Core(value, Trim(value))
  {
    var a := TrimLeftSplits(value);
    var b := TrimRightSplits(TrimLeft(value));
    var l, t := TrimLeft(value), Trim(value);
    assert l == t + b && value == a + t + b;
    assert t != [] ==> t[0] == l[0];
  }

  lemma {:induction false} TrimLeftSplits(s: string) returns (a: string)
    ensures Blank(a) && s == a + TrimLeft(s) && (TrimLeft(s) != [] ==> !Space(TrimLeft(s)[0]))
  {
    a := [];
    if s != [] && Space(s[0]) {
      var rest := TrimLeftSplits(s[1..]);
      a := [s[0]] + rest;
      assert s == [s[0]] + s[1..];
    }
  }

  lemma {:induction false} TrimRightSplits(s: string) returns (b: string)
    ensures Blank(b) && s == TrimRight(s) + b
    ensures TrimRight(s) != [] ==> !Space(TrimRight(s)[|TrimRight(s)| - 1])
  {
    b := [];
    if s != [] && Space(s[|s| - 1]) {
      var rest := TrimRightSplits(s[..|s| - 1]);
      b := rest + [s[|s| - 1]];
      assert s == s[..|s| - 1] + [s[|s| - 1]];
    }
  }

  lemma NoDollarNoShell(core: string)
    ensures !("$" <= core) ==> !("${env:" <= core) && forall n :: !ShellForm(core, n)
  {
    forall n | ShellForm(core, n) ensures "$" <= core {
      assert ("$" + n)[0] == '$' && ("${" + n + "}")[0] == '$';
    }
    assert "${env:"[0] == '$';
  }

  lemma DollarIsNoSecret(core: string)
    ensures "secret:" <= core ==> !("$" <= core)
  {
    assert "secret:"[0] == 's' && "$"[0] == '$';
  }

  /** In particular no sensitive value that is no reference stays readable. */
  lemma SensitiveIsHidden(sensitive: string -> bool, manifest: string, name: string, value: string, core: string)
    requires Core(value, core) && sensitive(name) && !("$" <= core) && !("secret:" <= core)
    ensures var t := RouterOf(sensitive, manifest)(name, value);
            && t.key == Some(VaultKey(manifest, name)) && t.value == "secret:" + VaultKey(manifest, name)
            && t.value != value
  {
    RouterExactly(sensitive, manifest, name, value, core);
    NoDollarNoShell(core);
    SecretRefIsPrefixed(VaultKey(manifest, name));
    TrimIsCore(value, core);
  }

  /** After routing, the secret references are exactly the routed variables' own. */
  lemma NoForeignReference(sensitive: string -> bool, manifest: string, before: map<string, string>, name: string)
    requires name in before
    ensures var t := Treated(RouterOf(sensitive, manifest), before, name);
            && (SecretPrefixed(t.value) <==> t.key.Some?)
            && (t.key.Some? ==> t.value == "secret:" + t.key.value && t.key.value == VaultKey(manifest, name))
  {
    RewrittenHead(sensitive, manifest, name, before[name]);
  }

  // How the hub resolves a reference.
  function Resolve(vault: map<string, string>, value: string): Option<string> {
    if "secret:" <= value then
      (if value[7..] in vault then Some(vault[value[7..]]) else None)
    else Some(value)
  }

  /** Round trip: a routed variable whose original is in the vault resolves to it. */
  lemma RoutedResolves(sensitive: string -> bool, manifest: string, vault: map<string, string>, name: string,
                       value: string)
    requires Routed(sensitive, name, value)
    requires VaultKey(manifest, name) in vault && vault[VaultKey(manifest, name)] == value
    ensures Resolve(vault, Rewritten(sensitive, manifest, name, value)) == Some(value)
  {
    var r := "secret:" + VaultKey(manifest, name);
    assert r[..7] == "secret:" && r[7..] == VaultKey(manifest, name);
  }
}
