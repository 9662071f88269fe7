/**
 * The remote drive: links, their encrypted names and keys, the tree they form,
 * and the answers one helper operation gets from the server.
 */
module Remote {
  import opened Outcome
  import opened Paths

  type LinkID = string

  /** The decrypted node keyring of a link; a link keeps its node key for life. */
  datatype KeyRing = NodeKey(owner: LinkID)

  datatype LinkState = StateActive | StateTrashed | StateDeleted

  /** `name` is the decryptable name, `unlockable` whether the node key decrypts. */
  datatype Link = Link(id: LinkID, parent: LinkID, name: Option<string>, unlockable: bool, state: LinkState)

  /** Names and node keys are encrypted to the parent's node key. */
  function GetName(l: Link, kr: KeyRing): Option<string> {
    if kr == NodeKey(l.parent) then l.name else None
  }

  function GetKeyRing(l: Link, kr: KeyRing): Option<KeyRing> {
    if kr == NodeKey(l.parent) && l.unlockable then Some(NodeKey(l.id)) else None
  }

  /** The links the server currently lists, apart from the root itself. */
  datatype Tree = Tree(root: LinkID, links: map<LinkID, Link>)

  /** The server refuses two children of one folder with the same name. */
  ghost predicate WellFormed(t: Tree) {
    && t.root !in t.links
    && (forall x | x in t.links :: t.links[x].id == x)
    && (forall x, y | x in t.links && y in t.links :: SameSlot(t.links[x], t.links[y]) ==> x == y)
  }

  predicate SameSlot(a: Link, b: Link) {
    a.parent == b.parent && a.name.Some? && a.name == b.name
  }

  /** Walking the components `c` down from the root ends at link `y`. */
  ghost predicate Reaches(t: Tree, c: seq<string>, y: LinkID)
    decreases |c|
  {
    if c == [] then y == t.root
    else
      && y in t.links
      && t.links[y].name == Some(c[|c| - 1])
      && Reaches(t, c[..|c| - 1], t.links[y].parent)
  }

  /** The string `p` is the clean path of link `y`. */
  ghost predicate IsPathOf(t: Tree, p: string, y: LinkID) {
    IsClean(p) && Reaches(t, SplitPath(p), y)
  }

  /** A link has one path. */
  lemma {:induction false} PathUnique(t: Tree, c: seq<string>, d: seq<string>, y: LinkID)
    requires WellFormed(t) && Reaches(t, c, y) && Reaches(t, d, y)
    ensures c == d
    decreases |c|
  {
    if c != [] && d != [] {
      PathUnique(t, c[..|c| - 1], d[..|d| - 1], t.links[y].parent);
      assert c == c[..|c| - 1] + [c[|c| - 1]];
      assert d == d[..|d| - 1] + [d[|d| - 1]];
    }
  }

  /** A path names one link. */
  lemma {:induction false} TargetUnique(t: Tree, c: seq<string>, y: LinkID, z: LinkID)
    requires WellFormed(t) && Reaches(t, c, y) && Reaches(t, c, z)
    ensures y == z
    decreases |c|
  {
    if c != [] {
      TargetUnique(t, c[..|c| - 1], t.links[y].parent, t.links[z].parent);
      assert SameSlot(t.links[y], t.links[z]);
    }
  }

  lemma ReachesSnoc(t: Tree, c: seq<string>, n: string, y: LinkID)
    requires y in t.links && t.links[y].name == Some(n) && Reaches(t, c, t.links[y].parent)
    ensures Reaches(t, c + [n], y)
  {
    assert (c + [n])[..|c|] == c;
  }

  /** Every prefix of a walkable path is walkable. */
  lemma {:induction false} PrefixTarget(t: Tree, c: seq<string>, y: LinkID, k: nat) returns (z: LinkID)
    requires Reaches(t, c, y) && k <= |c|
    ensures Reaches(t, c[..k], z)
    decreases |c|
  {
    if k == |c| {
      assert c[..k] == c;
      z := y;
    } else {
      z := PrefixTarget(t, c[..|c| - 1], t.links[y].parent, k);
      assert c[..|c| - 1][..k] == c[..k];
    }
  }

  // ----- what the server answers -----

  /** When a piece of data left the server: request number and clock reading. */
  datatype Fetch = Fetch(call: nat, at: nat)

  datatype Listing = Listing(links: seq<Link>, asOf: Fetch)

  /**
   * The server's side of one operation. Answers are indexed by the request
   * number, so any request may fail while the same request succeeds later.
   * `order` is the unspecified iteration order of Go maps.
   */
  datatype Api = Api(
    list: (nat, LinkID) -> Result<seq<Link>>,
    getLink: (nat, LinkID) -> Result<Link>,
    rootKey: nat -> Result<KeyRing>,
    order: set<string> -> seq<string>)

  ghost predicate IsListing(t: Tree, id: LinkID, ls: seq<Link>) {
    forall l: Link :: l in ls <==> l.id in t.links && t.links[l.id] == l && l.parent == id
  }

  /** Every answer that is not an error reflects the tree `t`. */
  ghost predicate Faithful(api: Api, t: Tree) {
    && (forall k, id :: api.list(k, id).Ok? ==> IsListing(t, id, api.list(k, id).value))
    && (forall k, id :: api.getLink(k, id).Ok? && id in t.links ==> api.getLink(k, id).value == t.links[id])
    && (forall k :: api.rootKey(k).Ok? ==> api.rootKey(k).value == NodeKey(t.root))
  }

  /** The first listed link whose name decrypts to `part`. */
  function FindNamed(ls: seq<Link>, kr: KeyRing, part: string): (r: Option<Link>)
    ensures r.Some? ==> r.value in ls && GetName(r.value, kr) == Some(part)
    ensures r.None? ==> forall l | l in ls :: GetName(l, kr) != Some(part)
  {
    if ls == [] then None
    else if GetName(ls[0], kr) == Some(part) then Some(ls[0])
    else FindNamed(ls[1..], kr, part)
  }

  /** It is the first of them: no link listed before it has that name. */
  lemma {:induction false} FindsFirst(ls: seq<Link>, kr: KeyRing, part: string) returns (i: nat)
    requires FindNamed(ls, kr, part).Some?
    ensures i < |ls| && FindNamed(ls, kr, part).value == ls[i]
    ensures forall j | 0 <= j < i :: GetName(ls[j], kr) != Some(part)
  {
    if GetName(ls[0], kr) == Some(part) {
      i := 0;
    } else {
      i := FindsFirst(ls[1..], kr, part);
      i := i + 1;
      assert forall j | 0 < j < i :: ls[j] == ls[1..][j - 1];
    }
  }

  lemma FindNamedStep(ls: seq<Link>, kr: KeyRing, part: string, i: nat)
    requires i < |ls|
    ensures FindNamed(ls[i..], kr, part)
         == if GetName(ls[i], kr) == Some(part) then Some(ls[i]) else FindNamed(ls[i + 1..], kr, part)
  {
    assert ls[i..][1..] == ls[i + 1..];
  }
}
