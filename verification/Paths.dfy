/**
 Materialized paths: "/branch/department/team/".

 A path is the ids from the top unit down, each followed by a slash, after a leading slash. Ids are
 non-empty and hold no slash (they are UUIDs), which is why a string prefix of a path can only end
 where an id ends.
*/
module Paths {
  type Id = id: string | id != "" && '/' !in id witness "0"

  function Child(parentPath: string, id: Id): string {
    parentPath + id + "/"
  }

  /** The path whose ids are `ids`, top first. */
  function Render(ids: seq<Id>): string {
    if ids == [] then "/" else Child(Render(ids[..|ids| - 1]), ids[|ids| - 1])
  }

  predicate EndsWithSlash(path: string) {
    path != "" && path[|path| - 1] == '/'
  }

  /** A prefix that ends with a slash cannot end inside the last id. */
  lemma PrefixEndsAtSlash(prefix: string, parentPath: string, id: Id)
    requires EndsWithSlash(prefix) && prefix <= Child(parentPath, id)
    ensures prefix == Child(parentPath, id) || prefix <= parentPath
  {
  }

  /** Two paths that are equal have the same last id and the same parent path. */
  lemma ChildIsInjective(p: string, a: Id, q: string, b: Id)
    requires EndsWithSlash(p) && EndsWithSlash(q) && Child(p, a) == Child(q, b)
    ensures p == q && a == b
  {
    PrefixEndsAtSlash(p, q, b);
    PrefixEndsAtSlash(q, p, a);
    assert p <= Child(p, a) && q <= Child(q, b);
    assert |p| == |q|;
    assert p == Child(p, a)[..|p|] == q;
    assert a == Child(p, a)[|p|..|Child(p, a)| - 1] == b;
  }

  // ------------------------------------------------------------------ reading a path back

  function StripLeft(s: string): string {
    if s != "" && s[0] == '/' then StripLeft(s[1..]) else s
  }

  function StripRight(s: string): string {
    if s != "" && s[|s| - 1] == '/' then StripRight(s[..|s| - 1]) else s
  }

  /** The pieces between slashes; `current` is the piece being read. */
  function Split(s: string, current: string): seq<string> {
    if s == "" then [current]
    else if s[0] == '/' then [current] + Split(s[1..], "")
    else Split(s[1..], current + [s[0]])
  }

  function NonEmpty(parts: seq<string>): seq<string> {
    if parts == [] then []
    else (if parts[0] == "" then [] else [parts[0]]) + NonEmpty(parts[1..])
  }

  /** path.strip("/").split("/"), empty parts left out. */
  function PathIds(path: string): seq<string> {
    NonEmpty(Split(StripRight(StripLeft(path)), ""))
  }

  /** The ids joined by slashes, without the outer ones. */
  function Join(ids: seq<Id>): string
    requires ids != []
  {
    if |ids| == 1 then ids[0] else Join(ids[..|ids| - 1]) + "/" + ids[|ids| - 1]
  }

  lemma {:induction false} RenderIsJoin(ids: seq<Id>)
    requires ids != []
    ensures Render(ids) == "/" + Join(ids) + "/"
  {
    if |ids| == 1 {
      assert ids[..0] == [];
      assert Render(ids) == "/" + ids[0] + "/";
    } else {
      RenderIsJoin(ids[..|ids| - 1]);
    }
  }

  lemma {:induction false} JoinEnds(ids: seq<Id>)
    requires ids != []
    ensures Join(ids) != "" && Join(ids)[0] != '/' && Join(ids)[|Join(ids)| - 1] != '/'
  {
    var last := ids[|ids| - 1];
    assert last[0] in last && last[|last| - 1] in last;
    if |ids| > 1 {
      JoinEnds(ids[..|ids| - 1]);
    }
  }

  lemma StripRemovesOuterSlashes(inner: string)
    requires inner != "" && inner[0] != '/' && inner[|inner| - 1] != '/'
    ensures StripRight(StripLeft("/" + inner + "/")) == inner
  {
  }

  /** Reading an id only extends the current piece. */
  lemma {:induction false} SplitReadsId(id: string, rest: string, current: string)
    requires '/' !in id
    ensures Split(id + rest, current) == Split(rest, current + id)
  {
    if id == "" {
      assert id + rest == rest && current + id == current;
    } else {
      assert (id + rest)[0] == id[0] && (id + rest)[1..] == id[1..] + rest;
      assert id[0] in id;
      SplitReadsId(id[1..], rest, current + [id[0]]);
      assert current + [id[0]] + id[1..] == current + id;
    }
  }

  /** After a slash the next piece begins; the piece before it is done. */
  lemma {:induction false} SplitAtSlash(last: Id, rest: string, current: string)
    ensures Split("/" + last + rest, current) == [current] + Split(rest, last)
  {
    var tail := "/" + last + rest;
    assert tail[0] == '/' && tail[1..] == last + rest;
    SplitReadsId(last, rest, "");
    assert "" + last == last;
  }

  lemma {:induction false} SplitJoinThen(ids: seq<Id>, rest: string)
    requires ids != []
    ensures Split(Join(ids) + rest, "") == ids[..|ids| - 1] + Split(rest, ids[|ids| - 1])
  {
    var last := ids[|ids| - 1];
    if |ids| == 1 {
      SplitReadsId(last, rest, "");
      assert "" + last == last;
    } else {
      var init := ids[..|ids| - 1];
      assert Join(ids) + rest == Join(init) + ("/" + last + rest);
      SplitJoinThen(init, "/" + last + rest);
      SplitAtSlash(last, rest, init[|init| - 1]);
      PiecesSoFar(init, Split(rest, last));
    }
  }

  lemma PiecesSoFar(init: seq<Id>, more: seq<string>)
    requires init != []
    ensures init[..|init| - 1] + ([init[|init| - 1]] + more) == init + more
  {
  }

  lemma {:induction false} NonEmptyKeepsIds(ids: seq<Id>)
    ensures NonEmpty(ids) == ids
  {
    if ids != [] {
      NonEmptyKeepsIds(ids[1..]);
    }
  }

  lemma SplitReadsJoin(ids: seq<Id>)
    requires ids != []
    ensures Split(Join(ids), "") == ids
  {
    assert Join(ids) + "" == Join(ids);
    SplitJoinThen(ids, "");
    assert ids == ids[..|ids| - 1] + [ids[|ids| - 1]];
  }

  /** Reading a rendered path gives its ids back. */
  lemma ReadRenderedPath(ids: seq<Id>)
    requires ids != []
    ensures PathIds(Render(ids)) == ids
  {
    RenderIsJoin(ids);
    JoinEnds(ids);
    StripRemovesOuterSlashes(Join(ids));
    SplitReadsJoin(ids);
    NonEmptyKeepsIds(ids);
  }
}
