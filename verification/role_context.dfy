/**
 * The role provider (src/lib/role-context.tsx): the role is derived from the
 * current search parameters, and `setRole` rewrites a copy of them.
 */
module RoleContext {
  import opened Text
  import opened UrlParams
  import opened Roles

  /**
   * The parameter list `setRole(nextRole)` produces from `ps`: for Ops no
   * `role` parameter is left, for Admin exactly one, `role=admin`, and no
   * other parameter is touched.
   */
  function WithRole(ps: Params, nextRole: Role): (next: Params)
    ensures nextRole == Ops ==> ValuesOf(next, "role") == []
    ensures nextRole == Admin ==> ValuesOf(next, "role") == ["admin"]
    ensures DeleteParam(next, "role") == DeleteParam(ps, "role")
  {
    DeleteKeepsOthers(ps, "role");
    SetParamMeaning(ps, "role", "admin");
    if nextRole == Ops then DeleteParam(ps, "role") else SetParam(ps, "role", "admin")
  }

  /** `setRole(nextRole)`: copy the current parameters, then delete or set `role` on the copy. */
  method SetRole(current: SearchParams, nextRole: Role) returns (next: SearchParams)
    ensures fresh(next)
    ensures next.pairs == WithRole(current.pairs, nextRole)
    ensures current.pairs == old(current.pairs)
  {
    next := new SearchParams.Copy(current);
    if nextRole == Ops {
      next.Delete("role");
    } else {
      next.Set("role", "admin");
    }
  }

  /** The query string of plain parameters parses back to them. */
  lemma ParseOfPlainQuery(ps: Params)
    ensures Plain(ps) && ps != [] ==> Parse("?" + Serialize(ps)) == ps
  {
    if Plain(ps) && ps != [] {
      ParseQueryOfSerialize(ps);
    }
  }

  /**
   * The memoised `role`: `getRoleFromUrl` of `?` followed by the serialized
   * parameters, or of "".  For plain parameters the detour through the
   * query string changes nothing: the role is the one the pairs select.
   */
  function DeriveRole(ps: Params): (r: Role)
    ensures ps == [] ==> r == Ops
    ensures Plain(ps) ==> r == RoleOf(ps)
  {
    ParseOfPlainQuery(ps);
    var query := Serialize(ps);
    GetRoleFromUrl(if query != "" then "?" + query else "")
  }

  /** Applying `setRole` twice with the same role gives the parameters of applying it once. */
  lemma SetRoleIdempotent(ps: Params, nextRole: Role)
    ensures WithRole(WithRole(ps, nextRole), nextRole) == WithRole(ps, nextRole)
  {
    DeleteKeepsOthers(ps, "role");
    SetIdempotent(ps, "role", "admin");
  }

  lemma WithRoleKeepsPlain(ps: Params, nextRole: Role)
    requires Plain(ps)
    ensures Plain(WithRole(ps, nextRole))
  {
    var next := WithRole(ps, nextRole);
    forall i | 0 <= i < |next|
      ensures next[i] in ps || next[i] == ("role", "admin")
    {
      MemberOfRewrite(ps, nextRole, next[i]);
    }
  }

  lemma {:induction false} MemberOfDelete(ps: Params, name: string, p: Param)
    requires p in DeleteParam(ps, name)
    ensures p in ps
  {
    if ps != [] {
      if p != ps[0] {
        assert p in DeleteParam(ps[1..], name);
        MemberOfDelete(ps[1..], name, p);
      }
    }
  }

  lemma {:induction false} MemberOfSet(ps: Params, name: string, value: string, p: Param)
    requires p in SetParam(ps, name, value)
    ensures p in ps || p == (name, value)
  {
    if ps != [] && p != (name, value) {
      if ps[0].0 == name {
        MemberOfDelete(ps[1..], name, p);
      } else if p != ps[0] {
        MemberOfSet(ps[1..], name, value, p);
      }
    }
  }

  lemma MemberOfRewrite(ps: Params, nextRole: Role, p: Param)
    requires p in WithRole(ps, nextRole)
    ensures p in ps || p == ("role", "admin")
  {
    if nextRole == Ops {
      MemberOfDelete(ps, "role", p);
    } else {
      MemberOfSet(ps, "role", "admin", p);
    }
  }

  /** Round trip: the role derived from the parameters `setRole(r)` produces is `r`. */
  lemma SetRoleRoundTrip(ps: Params, nextRole: Role)
    requires Plain(ps)
    ensures DeriveRole(WithRole(ps, nextRole)) == nextRole
  {
    var next := WithRole(ps, nextRole);
    WithRoleKeepsPlain(ps, nextRole);
    RoleOfValues(next);
  }
}
