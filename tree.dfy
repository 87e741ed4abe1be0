/** Trees (tree.py): scenery the sword cuts down for coins. */
module Trees {
  import opened Geometry
  import opened Dicts
  import opened Settings

  const TreeWidth := 120
  const TreeHeight := 180
  /** Hits of damage 1 needed to cut a fresh tree. */
  const TreeHealth := 3

  datatype Tree = Tree(rect: Rect, health: int, coinsOnCut: int, isCut: bool)

  /** Tree(x, y) without saved data: a 120x180 tree at (x, y). */
  function NewTree(x: int, y: int): (t: Tree)
    ensures WellFormed(t) && t.rect.x == x && t.rect.y == y
    ensures t.health == TreeHealth && t.coinsOnCut == CoinsPerTreeCut && !t.isCut
  {
    Tree(Rect(x, y, TreeWidth, TreeHeight), TreeHealth, CoinsPerTreeCut, false)
  }

  /** The size every tree has: the constructor sets it and nothing changes it. */
  predicate WellFormed(t: Tree)
  {
    t.rect.w == TreeWidth && t.rect.h == TreeHeight
  }

  /** take_hit: the tree after the hit, and the coins it yields. A cut tree ignores the
      hit; otherwise health drops by the damage and the tree is cut, yielding its coins,
      exactly when health reaches 0 or below. */
  function TakeHit(t: Tree, damage: int): (r: (Tree, int))
    ensures t.isCut ==> r == (t, 0)
    ensures !t.isCut ==> r.0 == t.(health := t.health - damage, isCut := r.0.isCut)
    ensures !t.isCut ==> (r.0.isCut <==> r.0.health <= 0)
    ensures r.1 == (if !t.isCut && r.0.isCut then t.coinsOnCut else 0)
    ensures r.0.rect == t.rect
  {
    if t.isCut then (t, 0)
    else
      var h := t.health - damage;
      if h <= 0 then (t.(health := h, isCut := true), t.coinsOnCut)
      else (t.(health := h), 0)
  }

  /** A run of hits in order: the final tree and the coins paid out in total. */
  function HitAll(t: Tree, damages: seq<int>): (r: (Tree, int))
    ensures r.0.rect == t.rect && r.0.coinsOnCut == t.coinsOnCut
    ensures t.isCut ==> r.0 == t
    decreases |damages|
  {
    if damages == [] then (t, 0)
    else
      var (t1, c1) := TakeHit(t, damages[0]);
      var (t2, c2) := HitAll(t1, damages[1..]);
      (t2, c1 + c2)
  }

  /** However many hits land, a tree pays its coins at most once: exactly when this run of
      hits is the one that cuts it. */
  lemma {:induction false} CoinsPaidOnce(t: Tree, damages: seq<int>)
    ensures HitAll(t, damages).1 == (if !t.isCut && HitAll(t, damages).0.isCut then t.coinsOnCut else 0)
    decreases |damages|
  {
    if damages != [] {
      var (t1, c1) := TakeHit(t, damages[0]);
      CoinsPaidOnce(t1, damages[1..]);
    }
  }

  /** A fresh tree hit three times with damage 1 pays 0, 0 and then 1 coin. */
  lemma ThreeUnitHits(x: int, y: int)
    ensures TakeHit(NewTree(x, y), 1).1 == 0
    ensures TakeHit(TakeHit(NewTree(x, y), 1).0, 1).1 == 0
    ensures TakeHit(TakeHit(TakeHit(NewTree(x, y), 1).0, 1).0, 1) == (NewTree(x, y).(health := 0, isCut := true), 1)
  {
  }

  /** The saved form of a tree (to_dict); a None field is a missing key. */
  datatype TreeRecord = TreeRecord(x: Option<int>, y: Option<int>, health: Option<int>, isCut: Option<bool>) {
    /** An empty dict, which Python treats as false in `if initial_data:`. */
    predicate IsEmpty() { x.None? && y.None? && health.None? && isCut.None? }
  }

  function ToDict(t: Tree): (d: TreeRecord)
    ensures !d.IsEmpty()
    ensures d.x == Some(t.rect.x) && d.y == Some(t.rect.y) && d.health == Some(t.health) && d.isCut == Some(t.isCut)
  {
    TreeRecord(Some(t.rect.x), Some(t.rect.y), Some(t.health), Some(t.isCut))
  }

  /** from_dict: each present key overwrites its field; missing keys keep the current value. */
  function FromDict(t: Tree, d: TreeRecord): (r: Tree)
    ensures r.rect.x == d.x.GetOr(t.rect.x) && r.rect.y == d.y.GetOr(t.rect.y)
    ensures r.health == d.health.GetOr(t.health) && r.isCut == d.isCut.GetOr(t.isCut)
    ensures r.rect.w == t.rect.w && r.rect.h == t.rect.h && r.coinsOnCut == t.coinsOnCut
  {
    t.(rect := t.rect.(x := d.x.GetOr(t.rect.x), y := d.y.GetOr(t.rect.y)),
       health := d.health.GetOr(t.health),
       isCut := d.isCut.GetOr(t.isCut))
  }

  /** Tree(0, 0, initial_data=d), the way the environment rebuilds a saved tree. */
  function Restore(d: TreeRecord): (t: Tree)
    ensures WellFormed(t) && t.coinsOnCut == CoinsPerTreeCut
  {
    var t := NewTree(0, 0);
    if d.IsEmpty() then t else FromDict(t, d)
  }

  /** Saving and restoring gives back position, health and the cut flag exactly. */
  lemma RoundTrip(t: Tree)
    requires WellFormed(t) && t.coinsOnCut == CoinsPerTreeCut
    ensures Restore(ToDict(t)) == t
  {
  }

  /** Keys missing from the record leave the current values. */
  lemma MissingKeysKeep(t: Tree, d: TreeRecord)
    ensures d.x.None? ==> FromDict(t, d).rect.x == t.rect.x
    ensures d.y.None? ==> FromDict(t, d).rect.y == t.rect.y
    ensures d.health.None? ==> FromDict(t, d).health == t.health
    ensures d.isCut.None? ==> FromDict(t, d).isCut == t.isCut
    ensures FromDict(t, d).rect.w == t.rect.w && FromDict(t, d).rect.h == t.rect.h
  {
  }
}
