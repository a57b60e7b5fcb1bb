/** The user role read from the URL query (src/lib/role.ts). */
module Roles {
  import opened Wrappers
  import opened Text
  import opened UrlParams

  datatype Role = Admin | Ops

  /** The role's string value, `'admin'` or `'ops'`. */
  function RoleValue(r: Role): (v: string)
    ensures |v| > 0 && (v == "admin" <==> r == Admin)
  {
    match r
    case Admin => "admin"
    case Ops => "ops"
  }

  /** `v` is `admin` in some mix of upper and lower case. */
  predicate IsAdminSpelling(v: string) {
    |v| == 5 && v[0] in "aA" && v[1] in "dD" && v[2] in "mM" && v[3] in "iI" && v[4] in "nN"
  }

  /** `v.toLowerCase() === 'admin'` holds exactly for the capitalisations of `admin`. */
  lemma LowerIsAdmin(v: string)
    ensures Lower(v) == "admin" <==> IsAdminSpelling(v)
  {
    if Lower(v) == "admin" {
      assert |v| == 5;
      assert LowerChar(v[0]) == 'a' && LowerChar(v[1]) == 'd' && LowerChar(v[2]) == 'm';
      assert LowerChar(v[3]) == 'i' && LowerChar(v[4]) == 'n';
    }
    if IsAdminSpelling(v) {
      assert Lower(v)[0] == 'a' && Lower(v)[1] == 'd' && Lower(v)[2] == 'm';
      assert Lower(v)[3] == 'i' && Lower(v)[4] == 'n';
    }
  }

  /** The role a parameter list selects: the first `role` value, lower-cased, must be `admin`. */
  function RoleOf(ps: Params): (r: Role)
    ensures GetParam(ps, "role").None? ==> r == Ops
    ensures r == Admin <==> GetParam(ps, "role").Some? && IsAdminSpelling(GetParam(ps, "role").value)
  {
    match GetParam(ps, "role")
    case Some(v) =>
      LowerIsAdmin(v);
      if Lower(v) == "admin" then Admin else Ops
    case None => Ops
  }

  /** `getRoleFromUrl(search)`; the `window.location.search` fallback is the caller's argument. */
  function GetRoleFromUrl(search: string): (r: Role)
    ensures search == "" ==> r == Ops
  {
    RoleOf(Parse(search))
  }

  /** Only the first `role` parameter is consulted: later pairs never change the role. */
  lemma {:induction false} FirstRoleParamDecides(a: Params, b: Params)
    requires GetParam(a, "role").Some?
    ensures RoleOf(a + b) == RoleOf(a)
  {
    GetParamAppend(a, b, "role");
  }

  /** The role follows the `role` values: none gives Ops, exactly `admin` gives Admin. */
  lemma RoleOfValues(ps: Params)
    ensures ValuesOf(ps, "role") == [] ==> RoleOf(ps) == Ops
    ensures ValuesOf(ps, "role") == ["admin"] ==> RoleOf(ps) == Admin
  {
    GetIsFirstValue(ps, "role");
    assert Lower("admin") == "admin";
  }

  /** Any other value, e.g. `administrator`, `ops` or the empty string, selects Ops. */
  lemma OtherValuesAreOps()
    ensures RoleOf([("role", "administrator")]) == Ops
    ensures RoleOf([("role", "ops")]) == Ops
    ensures RoleOf([("role", "")]) == Ops
    ensures RoleOf([("role", "ops"), ("role", "admin")]) == Ops
    ensures RoleOf([("tab", "x"), ("role", "ADMIN")]) == Admin
  {
    assert IsAdminSpelling("ADMIN");
  }
}
