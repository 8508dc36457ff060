/**
 * Which menu entry a route highlights: the shop's top bar picks the most
 * specific entry whose key starts the path, the back office's side menu the
 * first one, falling back to the dashboard.
 */
module NavKeys {
  import opened Wrappers

  /** `s.startsWith(prefix)`. */
  predicate StartsWith(s: string, prefix: string) {
    prefix <= s
  }

  /** A key that can match: `key !== "/" && pathname.startsWith(key)`. */
  predicate Matches(key: string, path: string) {
    key != "/" && key <= path
  }

  /** The position of `key` in `keys`, or `|keys|`. */
  function Position(keys: seq<string>, key: string): (i: nat)
    ensures i <= |keys|
    ensures i < |keys| ==> keys[i] == key
    ensures forall j :: 0 <= j < i ==> keys[j] != key
  {
    if keys == [] || keys[0] == key then 0 else 1 + Position(keys[1..], key)
  }

  /**
   * `[...keys].sort((a, b) => b.length - a.length).find(matches)`: the sort
   * is stable, so this is the longest matching key, and among keys of that
   * length the one listed first.
   */
  function MostSpecific(keys: seq<string>, path: string): (r: Option<string>)
    ensures r.None? <==> forall k :: k in keys ==> !Matches(k, path)
    ensures r.Some? ==> r.value in keys && Matches(r.value, path)
    ensures r.Some? ==> forall k :: k in keys && Matches(k, path) ==> |k| <= |r.value|
    ensures r.Some? ==> forall j :: 0 <= j < Position(keys, r.value) && Matches(keys[j], path) ==> |keys[j]| < |r.value|
  {
    if keys == [] then None
    else
      var rest := MostSpecific(keys[1..], path);
      if Matches(keys[0], path) && (rest.None? || |rest.value| <= |keys[0]|) then Some(keys[0])
      else rest
  }

  /**
   * `getSelectedKey(pathname)` over the keys of the navigation items: the home
   * key only for the home path itself, otherwise the most specific matching
   * key, and "" when none matches.
   */
  function SelectedKey(keys: seq<string>, path: string): (r: string)
    ensures path == "/" ==> r == "/"
    ensures path != "/" ==> r != "/"
    ensures path != "/" && r != "" ==> r in keys && r <= path
    ensures path != "/" && (exists k :: k in keys && Matches(k, path) && k != "") ==> r != ""
    ensures path != "/" ==> forall k :: k in keys && Matches(k, path) ==> |k| <= |r|
  {
    if path == "/" then "/"
    else
      match MostSpecific(keys, path)
      case Some(k) => k
      case None => ""
  }

  /** The back office menu keys, in menu order. */
  const AdminMenu: seq<string> :=
    ["/admin/dashboard", "/admin/clientes", "/admin/produtos", "/admin/pedidos", "/admin/campanhas", "/admin/configuracoes"]

  const Dashboard: string := "/admin/dashboard"

  /** The first key of `keys` that starts `path`. */
  function FirstPrefix(keys: seq<string>, path: string): (r: Option<string>)
    ensures r.None? <==> forall k :: k in keys ==> !StartsWith(path, k)
    ensures r.Some? ==> r.value in keys && StartsWith(path, r.value)
    ensures r.Some? ==> forall j :: 0 <= j < Position(keys, r.value) ==> !StartsWith(path, keys[j])
  {
    if keys == [] then None
    else if StartsWith(path, keys[0]) then Some(keys[0])
    else FirstPrefix(keys[1..], path)
  }

  /** `getSelectedAdminKey(pathname)`: the first menu key starting the path, else the dashboard. */
  function SelectedAdminKey(path: string): (r: string)
    ensures r in AdminMenu
    ensures (exists k :: k in AdminMenu && StartsWith(path, k)) ==> StartsWith(path, r)
    ensures (forall k :: k in AdminMenu ==> !StartsWith(path, k)) ==> r == Dashboard
  {
    match FirstPrefix(AdminMenu, path)
    case Some(k) => k
    case None => Dashboard
  }

  // ---------------------------------------------------------------------
  // Properties
  // ---------------------------------------------------------------------

  /** No back office key starts another one. */
  lemma AdminKeysPrefixFree()
    ensures forall a, b :: 0 <= a < |AdminMenu| && 0 <= b < |AdminMenu| && a != b ==> !StartsWith(AdminMenu[b], AdminMenu[a])
  {
    var tags := ["da", "cl", "pr", "pe", "ca", "co"];
    assert forall a :: 0 <= a < |AdminMenu| ==> |AdminMenu[a]| >= 9 && AdminMenu[a][7..9] == tags[a] by {
      assert AdminMenu[0][7..9] == tags[0] && AdminMenu[1][7..9] == tags[1] && AdminMenu[2][7..9] == tags[2];
      assert AdminMenu[3][7..9] == tags[3] && AdminMenu[4][7..9] == tags[4] && AdminMenu[5][7..9] == tags[5];
    }
    forall a, b | 0 <= a < |AdminMenu| && 0 <= b < |AdminMenu| && a != b
      ensures !StartsWith(AdminMenu[b], AdminMenu[a])
    {
      assert tags[a] != tags[b];
      PrefixKeepsSlices(AdminMenu[a], AdminMenu[b], 7, 9);
    }
  }

  /** A prefix agrees with the string on every slice it covers. */
  lemma PrefixKeepsSlices(p: string, s: string, i: nat, j: nat)
    requires i <= j <= |p|
    ensures StartsWith(s, p) ==> p[i..j] == s[i..j]
  {
    if StartsWith(s, p) {
      assert s[..|p|] == p;
      assert s[..|p|][i..j] == s[i..j];
    }
  }

  /** Two strings that start the same path: the shorter one starts the longer. */
  lemma PrefixesNest(a: string, b: string, path: string)
    requires a <= path && b <= path && |a| <= |b|
    ensures a <= b
  {
    assert a == path[..|a|] && b == path[..|b|];
    assert b[..|a|] == path[..|a|];
  }

  /** Any page under a menu item's path selects that item. */
  lemma SubpageSelectsItsItem(i: nat, rest: string)
    requires i < |AdminMenu|
    ensures SelectedAdminKey(AdminMenu[i] + rest) == AdminMenu[i]
  {
    var path := AdminMenu[i] + rest;
    var key := AdminMenu[i];
    assert StartsWith(path, key) && key in AdminMenu;
    var found := FirstPrefix(AdminMenu, path);
    var j := Position(AdminMenu, found.value);
    AdminKeysPrefixFree();
    if j != i && |found.value| <= |key| {
      PrefixesNest(found.value, key, path);
    }
  }
}
