/** The ConfigMap key of a resource (cmKey, and bookmarkName in the Reader): group, version and resource joined by dots,
    with "core" for the empty group. */
module BookmarkKey {
  import opened Wrappers

  datatype GVR = GVR(group: string, version: string, resource: string)

  predicate Empty(gvr: GVR) {
    gvr == GVR("", "", "")
  }

  function CmKey(gvr: GVR): string {
    if Empty(gvr) then ""
    else (if gvr.group == "" then "core" else gvr.group) + "." + gvr.version + "." + gvr.resource
  }

  /** The two parts of s around its last dot. */
  function SplitLast(s: string): Option<(string, string)> {
    if s == "" then None
    else
      var n := |s| - 1;
      if s[n] == '.' then Some((s[..n], ""))
      else match SplitLast(s[..n])
           case None => None
           case Some(p) => Some((p.0, p.1 + [s[n]]))
  }

  lemma {:induction false} SplitJoin(a: string, b: string)
    requires '.' !in b
    ensures SplitLast(a + "." + b) == Some((a, b))
    decreases |b|
  {
    var s := a + "." + b;
    var n := |s| - 1;
    if b == "" {
      assert s[n] == '.' && s[..n] == a;
    } else {
      var b' := b[..|b| - 1];
      assert s[n] == b[|b| - 1] && s[n] in b;
      assert s[..n] == a + "." + b';
      SplitJoin(a, b');
      assert b' + [b[|b| - 1]] == b;
    }
  }

  lemma {:induction false} SplitSound(s: string)
    ensures SplitLast(s).Some? ==> var p := SplitLast(s).value; s == p.0 + "." + p.1 && '.' !in p.1
    decreases |s|
  {
    if s != "" {
      var n := |s| - 1;
      assert s == s[..n] + [s[n]];
      SplitSound(s[..n]);
    }
  }

  /** Reading a key back, from the right: only the group may contain dots. */
  function Parse(key: string): Option<GVR> {
    if key == "" then Some(GVR("", "", ""))
    else match SplitLast(key)
         case None => None
         case Some(p) =>
           match SplitLast(p.0)
           case None => None
           case Some(q) => Some(GVR(if q.0 == "core" then "" else q.0, q.1, p.1))
  }

  /** The key names its resource, and can be read back, exactly when version and resource have no dot and the group is not
      the literal "core" that stands for the empty one. */
  lemma KeyRoundTrips(gvr: GVR)
    ensures Parse(CmKey(gvr)) == Some(gvr) <==> '.' !in gvr.version && '.' !in gvr.resource && gvr.group != "core"
  {
    if !Empty(gvr) {
      var key := CmKey(gvr);
      var group := if gvr.group == "" then "core" else gvr.group;
      assert key == (group + "." + gvr.version) + "." + gvr.resource;
      assert key[|group|] == '.';
      if '.' !in gvr.version && '.' !in gvr.resource {
        SplitJoin(group + "." + gvr.version, gvr.resource);
        SplitJoin(group, gvr.version);
      } else if Parse(key) == Some(gvr) {
        SplitSound(key);
        SplitSound(SplitLast(key).value.0);
      }
    }
  }

  /** So two such resources never share an entry, however many dots their groups have. */
  lemma KeysDistinct(a: GVR, b: GVR)
    requires '.' !in a.version && '.' !in a.resource && a.group != "core"
    requires '.' !in b.version && '.' !in b.resource && b.group != "core"
    ensures CmKey(a) == CmKey(b) <==> a == b
  {
    KeyRoundTrips(a);
    KeyRoundTrips(b);
  }
}
