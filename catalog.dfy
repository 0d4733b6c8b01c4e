/** The installed-application catalog: the name-to-identifier dictionary that
    the app listing builds from the `app` nodes of the device's reply. */
module Catalog {
  import opened Protocol

  /** Application display name to the device's identifier for it. */
  type Apps = map<string, string>

  /** One `app` node of the listing, in document order: the text of its first
      child (`None` when that child is missing or is not text) and its `id`
      attribute (empty when absent). */
  datatype AppNode = AppNode(text: Option<string>, id: string)

  /** Every node has a text child, so reading `firstChild.data` never raises. */
  predicate Named(nodes: seq<AppNode>) {
    forall i | 0 <= i < |nodes| :: nodes[i].text.Some?
  }

  /** The dictionary after assigning `apps[name] = id` for every node in
      order: a later node with the same name overwrites an earlier one. */
  function Build(nodes: seq<AppNode>): (apps: Apps)
    requires Named(nodes)
    ensures apps.Keys <= Names(nodes)
    ensures nodes != [] ==> nodes[|nodes| - 1].text.value in apps && apps[nodes[|nodes| - 1].text.value] == nodes[|nodes| - 1].id
    decreases |nodes|
  {
    if nodes == [] then map[]
    else
      var init := nodes[..|nodes| - 1];
      var last := nodes[|nodes| - 1];
      assert Names(init) <= Names(nodes) by {
        forall k | k in Names(init) ensures k in Names(nodes) {
          var i :| 0 <= i < |init| && init[i].text.value == k;
          assert nodes[i] == init[i];
        }
      }
      Build(init)[last.text.value := last.id]
  }

  /** The names the nodes carry. */
  function Names(nodes: seq<AppNode>): set<string>
    requires Named(nodes)
  {
    set i | 0 <= i < |nodes| :: nodes[i].text.value
  }

  /** The catalog covers exactly the names of the nodes. */
  lemma {:induction false} BuildKeys(nodes: seq<AppNode>)
    requires Named(nodes)
    ensures Build(nodes).Keys == Names(nodes)
  {
    if nodes != [] {
      var init := nodes[..|nodes| - 1];
      BuildKeys(init);
      var n := |nodes| - 1;
      forall k | k in Names(nodes) ensures k in Build(nodes) {
        var i :| 0 <= i < |nodes| && nodes[i].text.value == k;
        if i < n {
          assert init[i] == nodes[i];
          assert k in Names(init);
        }
      }
      forall k | k in Build(nodes) ensures k in Names(nodes) {
        if k != nodes[n].text.value {
          assert k in Names(init);
          var i :| 0 <= i < n && init[i].text.value == k;
          assert nodes[i] == init[i];
        }
      }
    }
  }

  /** The identifier of a name is the one on the last node that carries it. */
  lemma {:induction false} BuildLastWins(nodes: seq<AppNode>, i: nat)
    requires Named(nodes) && i < |nodes|
    requires forall j | i < j < |nodes| :: nodes[j].text != nodes[i].text
    ensures nodes[i].text.value in Build(nodes)
    ensures Build(nodes)[nodes[i].text.value] == nodes[i].id
  {
    var n := |nodes| - 1;
    if i < n {
      var init := nodes[..n];
      assert init[i] == nodes[i];
      forall j | i < j < |init| ensures init[j].text != init[i].text {
        assert init[j] == nodes[j];
      }
      BuildLastWins(init, i);
      assert nodes[n].text != nodes[i].text;
    }
  }

  /** The loop of the listing: it builds the dictionary in place, and raises
      (the whole listing fails) at the first node without a text child. */
  method BuildCatalog(nodes: seq<AppNode>) returns (r: Result<Apps>)
    ensures Named(nodes) ==> r == Ok(Build(nodes))
    ensures !Named(nodes) ==> r == Err(MalformedReply)
  {
    var apps: Apps := map[];
    var i := 0;
    while i < |nodes|
      invariant 0 <= i <= |nodes|
      invariant Named(nodes[..i])
      invariant apps == Build(nodes[..i])
    {
      var node := nodes[i];
      if node.text.None? {
        return Err(MalformedReply);
      }
      assert nodes[..i + 1][..i] == nodes[..i];
      apps := apps[node.text.value := node.id];
      i := i + 1;
    }
    assert nodes[..i] == nodes;
    return Ok(apps);
  }
}
