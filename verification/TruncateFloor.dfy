/** Where a truncation may cut: the greatest offset, no higher than asked and no higher
    than what is published, that no file of either table straddles. */
module TruncateFloor {
  import opened TierState
  import opened TierSteps

  predicate Straddles(file: File, offset: nat) {
    file.start < offset < file.end
  }

  predicate Clear(files: seq<File>, offset: nat) {
    forall file <- files :: !Straddles(file, offset)
  }

  function Min(a: nat, b: nat): nat {
    if a < b then a else b
  }

  /** One pass over the files: each that straddles the floor lowers it to its start. */
  method Pass(files: seq<File>, from: nat) returns (floor: nat, moved: bool)
    ensures floor <= from && (moved <==> floor < from)
    ensures !moved ==> Clear(files, from)
    ensures forall x: nat | x <= from && Clear(files, x) :: x <= floor
  {
    floor, moved := from, false;
    for i := 0 to |files|
      invariant floor <= from && (moved <==> floor < from)
      invariant !moved ==> forall j :: 0 <= j < i ==> !Straddles(files[j], from)
      invariant forall x: nat | x <= from && Clear(files, x) :: x <= floor
    {
      if Straddles(files[i], floor) {
        assert files[i] in files;
        floor, moved := files[i].start, true;
      }
    }
  }

  /** Each file lies wholly below an offset or wholly from it up. */
  ghost predicate Uncut(files: seq<File>, offset: nat) {
    forall file <- files :: file.end <= offset || offset <= file.start
  }

  /** No higher than asked, or than what is published, and between the files of both tables. */
  ghost predicate MayCut(below: nat, through: nat, staging: seq<File>, published: seq<File>, offset: nat) {
    offset <= below && offset <= through + 1 && Uncut(staging, offset) && Uncut(published, offset)
  }

  lemma ClearIs(files: seq<File>, offset: nat)
    ensures Clear(files, offset) <==> Uncut(files, offset)
  {
    if Uncut(files, offset) {
      forall file <- files ensures !Straddles(file, offset) { }
    }
    if Clear(files, offset) {
      forall file <- files ensures file.end <= offset || offset <= file.start { assert !Straddles(file, offset); }
    }
  }

  method Floor(below: nat, through: nat, staging: seq<File>, published: seq<File>) returns (floor: nat)
    ensures MayCut(below, through, staging, published, floor)
    ensures forall x: nat | MayCut(below, through, staging, published, x) :: x <= floor
  {
    hide Clear;
    forall x: nat ensures Clear(staging, x) && Clear(published, x) <==> Uncut(staging, x) && Uncut(published, x) {
      ClearIs(staging, x);
      ClearIs(published, x);
    }
    floor := Min(below, through + 1);
    var files := staging + published;
    ClearBoth(staging, published);
    var moved := true;
    while moved
      invariant floor <= Min(below, through + 1)
      invariant !moved ==> Clear(files, floor)
      invariant forall x: nat | x <= Min(below, through + 1) && Clear(files, x) :: x <= floor
      decreases floor, moved
    {
      floor, moved := Pass(files, floor);
    }
  }

  lemma ClearBoth(a: seq<File>, b: seq<File>)
    ensures forall x: nat :: Clear(a + b, x) <==> Clear(a, x) && Clear(b, x)
  {
    forall x: nat ensures Clear(a + b, x) <==> Clear(a, x) && Clear(b, x) {
      if Clear(a + b, x) {
        assert forall file <- a :: file in a + b;
        assert forall file <- b :: file in a + b;
      }
    }
  }

  /** Under the claim, that floor is one the protocol's truncation may cut at. */
  lemma FloorMayCut(s: State, id: nat, below: nat, floor: nat, staging: seq<File>, published: seq<File>)
    requires forall f :: f in s.d.staging ==> f in staging
    requires forall f :: f in s.d.published ==> f in published
    requires id !in s.ops && Unclaimed(s, Everything)
    requires MayCut(below, s.d.through, staging, published, floor)
    ensures Enabled(s, ClaimTruncate(id, floor))
  {
    assert forall f :: f in s.d.staging + s.d.published ==> f.end <= floor || floor <= f.start;
  }
}
