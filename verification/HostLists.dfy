/** What --restrict_hosts lets through when it is given a comma-separated list of host names. */
module HostLists {
  import opened Text
  import opened ResourcePlans
  import opened Reactions

  ghost predicate Occurs(s: string, pat: string) {
    exists i :: OccursAt(s, pat, i)
  }

  function Join(names: seq<string>): string {
    if names == [] then ""
    else if |names| == 1 then names[0]
    else Join(names[..|names| - 1]) + "," + names[|names| - 1]
  }

  lemma WindowIn(s: string, pat: string, i: int)
    requires OccursAt(s, pat, i)
    ensures forall k | i <= k < i + |pat| :: s[k] in pat
  {
    forall k | i <= k < i + |pat|
      ensures s[k] in pat
    {
      assert s[k] == s[i..i + |pat|][k - i];
    }
  }

  /** A comma-free pattern lies on one side of the comma. */
  lemma OccursAround(a: string, b: string, pat: string)
    requires ',' !in pat
    ensures Occurs(a + "," + b, pat) <==> Occurs(a, pat) || Occurs(b, pat)
  {
    var s, k, m := a + "," + b, |a|, |pat|;
    if i :| OccursAt(s, pat, i) {
      WindowIn(s, pat, i);
      assert s[k] == ',';
      if i + m <= k {
        assert a[i..i + m] == s[i..i + m];
        assert OccursAt(a, pat, i);
      } else {
        assert b[i - k - 1..i - k - 1 + m] == s[i..i + m];
        assert OccursAt(b, pat, i - k - 1);
      }
    }
    if i :| OccursAt(a, pat, i) {
      assert s[i..i + m] == a[i..i + m];
      assert OccursAt(s, pat, i);
    }
    if i :| OccursAt(b, pat, i) {
      assert s[k + 1 + i..k + 1 + i + m] == b[i..i + m];
      assert OccursAt(s, pat, k + 1 + i);
    }
  }

  lemma {:induction false} OccursInJoin(names: seq<string>, pat: string)
    requires names != [] && ',' !in pat
    ensures Occurs(Join(names), pat) <==> exists name | name in names :: Occurs(name, pat)
  {
    hide Occurs;
    var front, last := names[..|names| - 1], names[|names| - 1];
    assert names == front + [last];
    if front != [] {
      OccursInJoin(front, pat);
      OccursAround(Join(front), last, pat);
    }
  }

  /** A host is allowed exactly when its name occurs somewhere in a listed name; it need not be listed itself. */
  lemma AllowedIff(cfg: Config, names: seq<string>, host: string)
    requires names != [] && cfg.restrictHosts == Join(names) != "" && ',' !in host
    ensures !HostRestricted(cfg, host) <==> exists name | name in names :: Occurs(name, host)
  {
    hide Join;
    OccursInJoin(names, host);
  }

  /** A listed host is allowed, and so is one whose name is the beginning of a listed one. */
  lemma PrefixAllowed(cfg: Config, names: seq<string>, name: string, host: string)
    requires name in names && host <= name && ',' !in host && cfg.restrictHosts == Join(names) != ""
    ensures !HostRestricted(cfg, host)
  {
    assert OccursAt(name, host, 0);
    AllowedIff(cfg, names, host);
  }

  /** With node10 and node11 listed, node1 is allowed too. */
  lemma UnlistedAllowed(cfg: Config)
    requires cfg.restrictHosts == "node10,node11"
    ensures !HostRestricted(cfg, "node1") && "node1" !in ["node10", "node11"]
  {
    var names := ["node10", "node11"];
    assert names[..1] == ["node10"];
    assert Join(names) == Join(["node10"]) + "," + "node11" == "node10,node11";
    assert "node10"[..5] == "node1";
    PrefixAllowed(cfg, names, "node10", "node1");
  }
}
