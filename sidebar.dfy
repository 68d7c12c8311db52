/** The side menu: the fixed entries, each shown only to users with its level, and the entry
  * of the current page highlighted. */
module Sidebar {
  import opened Wrappers
  import opened Seqs
  import opened Types
  import opened Auth

  datatype MenuItem = MenuItem(id: string, labelKey: string, permission: string)

  const MenuItems: seq<MenuItem> := [
    MenuItem("dashboard", "nav.dashboard", "funcionario"),
    MenuItem("seguranca", "nav.security", "gerente"),
    MenuItem("recursos", "nav.resources", "funcionario"),
    MenuItem("usuarios", "nav.users", "admin"),
    MenuItem("configuracoes", "nav.settings", "admin")
  ]

  /** The test the menu applies to each entry. */
  function CanSee(user: Option<User>): MenuItem -> bool {
    (item: MenuItem) => HasPermission(user, item.permission)
  }

  /** The entries shown to `user`, in menu order. */
  function VisibleItems(user: Option<User>): seq<MenuItem> {
    Filter(CanSee(user), MenuItems)
  }

  function Ids(items: seq<MenuItem>): seq<string> {
    Map((item: MenuItem) => item.id, items)
  }

  /** An entry is shown exactly when its level is granted, and the shown entries keep the menu's
    * order. */
  lemma VisibleIffPermitted(user: Option<User>)
    ensures forall item :: item in VisibleItems(user) <==> item in MenuItems && HasPermission(user, item.permission)
    ensures Subseq(VisibleItems(user), MenuItems)
  {
    FilterSpec(CanSee(user), MenuItems);
  }

  /** With nobody logged in, no entry is shown. */
  lemma NoUserNoMenu()
    ensures VisibleItems(None) == []
  {
    FilterNone(CanSee(None), MenuItems);
  }

  /** An employee sees the dashboard and the resources; a manager also sees security; an
    * administrator sees all five entries. */
  lemma MenuPerLevel(u: User)
    ensures VisibleItems(Some(u)) ==
      match u.nivel
      case Funcionario => [MenuItems[0], MenuItems[2]]
      case Gerente => [MenuItems[0], MenuItems[1], MenuItems[2]]
      case Admin => MenuItems
  {
    var p := CanSee(Some(u));
    var m := MenuItems;
    var g := u.nivel != Funcionario;
    var a := u.nivel == Admin;
    assert p(m[0]) && p(m[2]) && p(m[1]) == g && p(m[3]) == a && p(m[4]) == a;
    assert m[..1][..0] == [];
    assert m[..2][..1] == m[..1];
    assert m[..3][..2] == m[..2];
    assert m[..4][..3] == m[..3];
    assert m[..4] == m[..|m| - 1];
    assert m[..1][0] == m[0] && m[..2][1] == m[1] && m[..3][2] == m[2] && m[..4][3] == m[3];
    assert Filter(p, m[..1][..0]) == [];
    var f1 := Filter(p, m[..1]);
    assert f1 == [m[0]];
    var f2 := Filter(p, m[..2]);
    assert f2 == f1 + (if g then [m[1]] else []);
    var f3 := Filter(p, m[..3]);
    assert f3 == f2 + [m[2]];
    var f4 := Filter(p, m[..4]);
    assert f4 == f3 + (if a then [m[3]] else []);
    assert Filter(p, m) == f4 + (if a then [m[4]] else []);
  }

  /** A higher level sees every entry a lower level sees. */
  lemma HigherLevelSeesMore(a: User, b: User)
    requires LevelRank(a.nivel) <= LevelRank(b.nivel)
    ensures forall item :: item in VisibleItems(Some(a)) ==> item in VisibleItems(Some(b))
  {
    VisibleIffPermitted(Some(a));
    VisibleIffPermitted(Some(b));
  }

  /** `currentPage === item.id`. */
  predicate IsActive(currentPage: string, item: MenuItem) {
    currentPage == item.id
  }

  /** The entry ids are all different, so at most one shown entry is active. */
  lemma AtMostOneActive(user: Option<User>, currentPage: string)
    ensures forall i, j :: 0 <= i < j < |VisibleItems(user)| ==>
      !(IsActive(currentPage, VisibleItems(user)[i]) && IsActive(currentPage, VisibleItems(user)[j]))
  {
    var v := VisibleItems(user);
    VisibleIffPermitted(user);
    DistinctIdsStayDistinct(v, MenuItems);
  }

  lemma {:induction false} DistinctIdsStayDistinct(a: seq<MenuItem>, b: seq<MenuItem>)
    requires Subseq(a, b)
    requires forall i, j :: 0 <= i < j < |b| ==> b[i].id != b[j].id
    ensures forall i, j :: 0 <= i < j < |a| ==> a[i].id != a[j].id
  {
    if a != [] && b != [] {
      var b' := b[..|b| - 1];
      assert forall i, j :: 0 <= i < j < |b'| ==> b'[i].id != b'[j].id;
      if a[|a| - 1] == b[|b| - 1] && Subseq(a[..|a| - 1], b') {
        DistinctIdsStayDistinct(a[..|a| - 1], b');
        SubseqMembers(a[..|a| - 1], b');
        forall i | 0 <= i < |a| - 1 ensures a[i].id != a[|a| - 1].id {
          assert a[i] == a[..|a| - 1][i];
          var k :| 0 <= k < |b'| && b'[k] == a[i];
          assert b[k] == a[i];
        }
      } else {
        DistinctIdsStayDistinct(a, b');
      }
    }
  }

  lemma {:induction false} SubseqMembers<T>(a: seq<T>, b: seq<T>)
    requires Subseq(a, b)
    ensures forall i :: 0 <= i < |a| ==> exists k :: 0 <= k < |b| && b[k] == a[i]
  {
    if a != [] && b != [] {
      var b' := b[..|b| - 1];
      if a[|a| - 1] == b[|b| - 1] && Subseq(a[..|a| - 1], b') {
        SubseqMembers(a[..|a| - 1], b');
        forall i | 0 <= i < |a| ensures exists k :: 0 <= k < |b| && b[k] == a[i] {
          if i < |a| - 1 {
            assert a[i] == a[..|a| - 1][i];
            var k :| 0 <= k < |b'| && b'[k] == a[i];
            assert b[k] == a[i];
          } else {
            assert b[|b| - 1] == a[i];
          }
        }
      } else {
        SubseqMembers(a, b');
        forall i | 0 <= i < |a| ensures exists k :: 0 <= k < |b| && b[k] == a[i] {
          var k :| 0 <= k < |b'| && b'[k] == a[i];
          assert b[k] == a[i];
        }
      }
    }
  }
}
