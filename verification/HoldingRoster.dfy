/** Which node types a held claim waits for: the members of the holding subgraph
    found under the alias that its producer's name leads to. */
module HoldingRoster {
  import opened Claims

  datatype ProducerRef = ProducerRef(name: string, alias: string)

  datatype Subgraph = Subgraph(acquirer: NodeType, alias: string, members: seq<NodeType>)

  function AliasOf(r: ProducerRef): string { if r.alias != "" then r.alias else r.name }

  /** The alias of the first reference to the producer, or nothing. */
  function FirstAlias(refs: seq<ProducerRef>, producer: string): string {
    if refs == [] then "" else if refs[0].name == producer then AliasOf(refs[0]) else FirstAlias(refs[1..], producer)
  }

  function MembersUnder(subgraphs: seq<Subgraph>, acquirer: NodeType, alias: string): seq<NodeType> {
    if subgraphs == [] then []
    else if subgraphs[0].acquirer == acquirer && subgraphs[0].alias == alias then subgraphs[0].members
    else MembersUnder(subgraphs[1..], acquirer, alias)
  }

  /** The members that must have registered before a claim on `producer` may commit. */
  function Expected(refs: seq<ProducerRef>, subgraphs: seq<Subgraph>, acquirer: NodeType,
                    producer: string): seq<NodeType> {
    var alias := FirstAlias(refs, producer);
    if alias == "" then [] else MembersUnder(subgraphs, acquirer, alias)
  }

  lemma {:induction false} FirstAliasKnown(refs: seq<ProducerRef>, ref: ProducerRef)
    requires ref in refs && ref.name != ""
    ensures FirstAlias(refs, ref.name) != ""
  {
    if refs[0].name == ref.name {
    } else {
      FirstAliasKnown(refs[1..], ref);
    }
  }

  /** A claim waits for the members of its own subgraph, whatever the subgraphs,
      exactly if its reference is the first one to its producer or shares that
      one's alias. */
  lemma ExpectsOwnMembers(refs: seq<ProducerRef>, acquirer: NodeType, ref: ProducerRef)
    requires ref in refs && ref.name != ""
    ensures (forall subgraphs: seq<Subgraph> ::
            Expected(refs, subgraphs, acquirer, ref.name) == MembersUnder(subgraphs, acquirer, AliasOf(ref)))
            <==> FirstAlias(refs, ref.name) == AliasOf(ref)
  {
    FirstAliasKnown(refs, ref);
    if FirstAlias(refs, ref.name) != AliasOf(ref) {
      var own := [Subgraph(acquirer, AliasOf(ref), [acquirer, "other"])];
      assert own[1..] == [];
      assert MembersUnder(own, acquirer, AliasOf(ref)) == [acquirer, "other"];
      assert MembersUnder(own, acquirer, FirstAlias(refs, ref.name)) == [];
    }
  }

  /** Two aliases of one producer: the second claim waits for the first one's
      holders. */
  lemma SecondAliasMisled()
    ensures var refs := [ProducerRef("store", "a"), ProducerRef("store", "b")];
            var subgraphs := [Subgraph("n", "a", ["n"]), Subgraph("n", "b", ["n", "m"])];
            Expected(refs, subgraphs, "n", "store") == ["n"]
                && MembersUnder(subgraphs, "n", AliasOf(refs[1])) == ["n", "m"]
  {
  }
}
