/**
  The table in which a node files the names it has come across.  Packets carry a 64-bit hash in place
  of a node name, and the receiver looks the hash up in its own table.  The hash function is a
  parameter.
 */
module Names {
  import opened Graph

  type UInt64 = n: nat | n < 0x1_0000_0000_0000_0000

  /** How a node turns names into hashes. */
  datatype Naming = Naming(self: NodeId, hash: NodeId -> UInt64)

  type Table = map<UInt64, NodeId>

  /** The simple case folding of the characters that occur in "localhost". */
  function Fold(c: char): char {
    if 'A' <= c <= 'Z' then c - 'A' + 'a' else if c == '\U{017F}' then 's' else c
  }

  predicate IsLocalhost(n: NodeId) {
    |n| == 9 && forall i :: 0 <= i < 9 ==> Fold(n[i]) == "localhost"[i]
  }

  function Canonical(nm: Naming, name: NodeId): NodeId {
    if IsLocalhost(name) then nm.self else name
  }

  function HashOf(nm: Naming, name: NodeId): UInt64 {
    nm.hash(Canonical(nm, name))
  }

  function Added(nm: Naming, table: Table, name: NodeId): Table {
    var h := HashOf(nm, name);
    if h in table then table else table[h := Canonical(nm, name)]
  }

  /** Any spelling of "localhost" stands for the node itself, and nothing else does unless it is its name. */
  lemma AliasStandsForSelf(nm: Naming, name: NodeId)
    ensures IsLocalhost("localhost") && IsLocalhost("LOCALHOST") && IsLocalhost("LocalHost")
            && !IsLocalhost("localhost1")
    ensures IsLocalhost(name) ==> HashOf(nm, name) == nm.hash(nm.self)
    ensures !IsLocalhost(name) ==> HashOf(nm, name) == nm.hash(name)
  {
  }

  /** Every entry is filed under its own hash and is no alias of this node. */
  ghost predicate TableOk(nm: Naming, table: Table) {
    forall h :: h in table ==> nm.hash(table[h]) == h && Canonical(nm, table[h]) == table[h]
  }

  lemma AddedKeepsTable(nm: Naming, table: Table, name: NodeId)
    requires TableOk(nm, table)
    ensures TableOk(nm, Added(nm, table, name))
    ensures HashOf(nm, name) in Added(nm, table, name)
  {
    assert Canonical(nm, Canonical(nm, name)) == Canonical(nm, name);
  }

  /** The table after the names have been filed in this order. */
  function Filed(nm: Naming, names: seq<NodeId>): Table {
    if names == [] then map[] else Added(nm, Filed(nm, names[..|names| - 1]), names[|names| - 1])
  }

  lemma {:induction false} FiledIsOk(nm: Naming, names: seq<NodeId>)
    ensures TableOk(nm, Filed(nm, names))
  {
    if names != [] {
      var n := |names| - 1;
      FiledIsOk(nm, names[..n]);
      AddedKeepsTable(nm, Filed(nm, names[..n]), names[n]);
    }
  }

  ghost predicate Unfiled(nm: Naming, names: seq<NodeId>, h: UInt64) {
    forall i :: 0 <= i < |names| ==> HashOf(nm, names[i]) != h
  }

  /** The i-th name is the first one filed under h. */
  ghost predicate IsFirst(nm: Naming, names: seq<NodeId>, i: nat, h: UInt64) {
    i < |names| && HashOf(nm, names[i]) == h && Unfiled(nm, names[..i], h)
  }

  /** Among the names filed, `name` comes before every other one with its hash. */
  ghost predicate FiledFirst(nm: Naming, names: seq<NodeId>, name: NodeId) {
    exists i: nat :: IsFirst(nm, names, i, nm.hash(name)) && Canonical(nm, names[i]) == name
  }

  lemma {:induction false} UnfiledIsAbsent(nm: Naming, names: seq<NodeId>, h: UInt64)
    requires Unfiled(nm, names, h)
    ensures h !in Filed(nm, names)
  {
    if names != [] {
      UnfiledIsAbsent(nm, names[..|names| - 1], h);
    }
  }

  /** Whatever was filed in whatever order, a hash stands for the first name filed under it. */
  lemma {:induction false} HashStandsForFirst(nm: Naming, names: seq<NodeId>, i: nat, h: UInt64)
    requires IsFirst(nm, names, i, h)
    ensures h in Filed(nm, names) && Filed(nm, names)[h] == Canonical(nm, names[i])
  {
    var n := |names| - 1;
    if i < n {
      assert names[..n][..i] == names[..i];
      HashStandsForFirst(nm, names[..n], i, h);
    } else {
      UnfiledIsAbsent(nm, names[..n], h);
    }
  }

  lemma {:induction false} FirstExists(nm: Naming, names: seq<NodeId>, h: UInt64) returns (i: nat)
    requires !Unfiled(nm, names, h)
    ensures IsFirst(nm, names, i, h)
  {
    var n := |names| - 1;
    if Unfiled(nm, names[..n], h) {
      assert forall j :: 0 <= j < n ==> names[..n][j] == names[j];
      i := n;
    } else {
      i := FirstExists(nm, names[..n], h);
      assert names[..n][..i] == names[..i];
    }
  }

  /**
    A hash is read as a name if and only if it is the name's and the name was filed before any other
    with that hash.
   */
  lemma ReadAsIff(nm: Naming, names: seq<NodeId>, h: UInt64, name: NodeId)
    ensures h in Filed(nm, names) && Filed(nm, names)[h] == name <==> nm.hash(name) == h && FiledFirst(nm, names, name)
  {
    if Unfiled(nm, names, h) {
      UnfiledIsAbsent(nm, names, h);
    } else {
      var i := FirstExists(nm, names, h);
      HashStandsForFirst(nm, names, i, h);
      if nm.hash(name) == h && FiledFirst(nm, names, name) {
        var k: nat :| IsFirst(nm, names, k, h) && Canonical(nm, names[k]) == name;
        HashStandsForFirst(nm, names, k, h);
      }
    }
  }

  /**
    A name that gets across: it is no alias that the sender replaces by a name with another hash, and
    the receiver filed it, before any other name with the same hash.
   */
  ghost predicate Crosses(sender: Naming, receiver: Naming, names: seq<NodeId>, name: NodeId) {
    HashOf(sender, name) == receiver.hash(name) && FiledFirst(receiver, names, name)
  }

  /**
    Where no other name has its hash, a name crosses if and only if the receiver filed it and it is
    no alias of the sender.
   */
  lemma CrossesIff(sender: Naming, receiver: Naming, names: seq<NodeId>, name: NodeId)
    requires HashOf(sender, name) == receiver.hash(name) <==> Canonical(sender, name) == name
    requires forall i :: 0 <= i < |names| ==> (HashOf(receiver, names[i]) == receiver.hash(name) <==>
               Canonical(receiver, names[i]) == name)
    ensures Crosses(sender, receiver, names, name) <==>
              Canonical(sender, name) == name && exists i :: 0 <= i < |names| && Canonical(receiver, names[i]) == name
  {
    var h := receiver.hash(name);
    if i :| 0 <= i < |names| && Canonical(receiver, names[i]) == name {
      assert HashOf(receiver, names[i]) == h;
      var first := FirstExists(receiver, names, h);
      assert Canonical(receiver, names[first]) == name;
    }
  }
}
