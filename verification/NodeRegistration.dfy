/**
 Registering nodes with the core: the context waits for one reply per node, while replies may be
 repeated or concern other nodes.
 */
module NodeRegistration {
  import opened Options
  import opened Kubernetes

  datatype Answer = NodeAccepted | NodeRejected | Unexpected

  datatype Reply = Reply(nodeId: string, answer: Answer)

  /** The reply that decides about a node is the first one. */
  function First(replies: seq<Reply>, id: string): Option<Answer> {
    if replies == [] then None
    else
      var init, last := replies[..|replies| - 1], replies[|replies| - 1];
      if First(init, id).Some? then First(init, id) else if last.nodeId == id then Some(last.answer) else None
  }

  lemma FirstOfMore(replies: seq<Reply>, reply: Reply, id: string)
    ensures First(replies + [reply], id)
         == if First(replies, id).Some? then First(replies, id) else if reply.nodeId == id then Some(reply.answer) else None
  {
    assert (replies + [reply])[..|replies|] == replies;
  }

  predicate Decided(nodes: map<string, Node>, replies: seq<Reply>, node: Node, answer: Answer) {
    node.name in nodes && nodes[node.name] == node && First(replies, node.name) == Some(answer)
  }

  /** The list holds exactly the nodes that got this answer, each once. */
  ghost predicate Lists(list: seq<Node>, nodes: map<string, Node>, replies: seq<Reply>, answer: Answer) {
    && (forall i, j :: 0 <= i < j < |list| ==> list[i].name != list[j].name)
    && (forall node :: node in list <==> Decided(nodes, replies, node, answer))
  }

  lemma ListsSame(list: seq<Node>, nodes: map<string, Node>, replies: seq<Reply>, reply: Reply, answer: Answer)
    requires Lists(list, nodes, replies, answer)
    requires reply.nodeId !in nodes || First(replies, reply.nodeId).Some? || reply.answer != answer
    ensures Lists(list, nodes, replies + [reply], answer)
  {
    forall node ensures node in list <==> Decided(nodes, replies + [reply], node, answer) {
      FirstOfMore(replies, reply, node.name);
      assert node in list <==> Decided(nodes, replies, node, answer);
    }
  }

  lemma ListsMore(list: seq<Node>, nodes: map<string, Node>, replies: seq<Reply>, reply: Reply)
    requires Lists(list, nodes, replies, reply.answer)
    requires reply.nodeId in nodes && nodes[reply.nodeId].name == reply.nodeId && First(replies, reply.nodeId).None?
    ensures Lists(list + [nodes[reply.nodeId]], nodes, replies + [reply], reply.answer)
  {
    var more := list + [nodes[reply.nodeId]];
    forall node ensures node in more <==> Decided(nodes, replies + [reply], node, reply.answer) {
      FirstOfMore(replies, reply, node.name);
      assert node in list <==> Decided(nodes, replies, node, reply.answer);
    }
    forall i | 0 <= i < |list| ensures list[i].name != reply.nodeId {
      assert list[i] in list;
    }
  }

  function Unanswered(nodes: map<string, Node>, replies: seq<Reply>): map<string, Node> {
    map id | id in nodes && First(replies, id).None? :: nodes[id]
  }

  lemma UnansweredSame(nodes: map<string, Node>, replies: seq<Reply>, reply: Reply)
    requires reply.nodeId !in Unanswered(nodes, replies)
    ensures Unanswered(nodes, replies + [reply]) == Unanswered(nodes, replies)
  {
    forall id ensures id in Unanswered(nodes, replies + [reply]) <==> id in Unanswered(nodes, replies) {
      FirstOfMore(replies, reply, id);
    }
  }

  lemma UnansweredLess(nodes: map<string, Node>, replies: seq<Reply>, reply: Reply)
    ensures Unanswered(nodes, replies + [reply]) == Unanswered(nodes, replies) - {reply.nodeId}
  {
    forall id ensures id in Unanswered(nodes, replies + [reply]) <==> id in Unanswered(nodes, replies) && id != reply.nodeId {
      FirstOfMore(replies, reply, id);
    }
  }

  lemma OneLess(pending: map<string, Node>, id: string)
    requires id in pending
    ensures |pending - {id}| == |pending| - 1
  {
    assert (pending - {id}).Keys == pending.Keys - {id};
  }

  class Registration {
    const nodes: map<string, Node>
    var pendingNodes: map<string, Node>
    var acceptedNodes: seq<Node>
    var rejectedNodes: seq<Node>
    var waitCount: int

    /** The state after these replies. */
    ghost predicate Valid(replies: seq<Reply>)
      reads this
    {
      && (forall id :: id in nodes ==> nodes[id].name == id)
      && pendingNodes == Unanswered(nodes, replies)
      && waitCount == |pendingNodes|
      && Lists(acceptedNodes, nodes, replies, NodeAccepted)
      && Lists(rejectedNodes, nodes, replies, NodeRejected)
    }

    constructor (nodes: map<string, Node>)
      requires forall id :: id in nodes ==> nodes[id].name == id
      ensures this.nodes == nodes && Valid([])
    {
      this.nodes := nodes;
      pendingNodes := nodes;
      acceptedNodes, rejectedNodes := [], [];
      waitCount := |nodes|;
    }

    /** The wait count goes down once per node and never below zero. */
    method HandleReply(reply: Reply, ghost replies: seq<Reply>)
      requires Valid(replies)
      modifies this
      ensures Valid(replies + [reply]) && 0 <= waitCount <= old(waitCount)
    {
      if reply.nodeId !in pendingNodes {
        UnansweredSame(nodes, replies, reply);
        ListsSame(acceptedNodes, nodes, replies, reply, NodeAccepted);
        ListsSame(rejectedNodes, nodes, replies, reply, NodeRejected);
        return;
      }
      var node := pendingNodes[reply.nodeId];
      UnansweredLess(nodes, replies, reply);
      OneLess(pendingNodes, reply.nodeId);
      pendingNodes := pendingNodes - {reply.nodeId};
      if reply.answer == NodeAccepted {
        ListsMore(acceptedNodes, nodes, replies, reply);
        acceptedNodes := acceptedNodes + [node];
      } else {
        ListsSame(acceptedNodes, nodes, replies, reply, NodeAccepted);
      }
      if reply.answer == NodeRejected {
        ListsMore(rejectedNodes, nodes, replies, reply);
        rejectedNodes := rejectedNodes + [node];
      } else {
        ListsSame(rejectedNodes, nodes, replies, reply, NodeRejected);
      }
      waitCount := waitCount - 1;
    }
  }

  /** The node is on exactly one of the two lists. */
  predicate OnOneList(node: Node, accepted: seq<Node>, rejected: seq<Node>) {
    node in accepted <==> node !in rejected
  }

  predicate Answered(replies: seq<Reply>, id: string) {
    First(replies, id) == Some(NodeAccepted) || First(replies, id) == Some(NodeRejected)
  }

  /** The wait ends exactly when every node has a reply. The accepted and the rejected nodes partition the request
      exactly when the reply that decides about each node is one of the two. */
  method RegisterNodes(nodes: map<string, Node>, replies: seq<Reply>)
    returns (accepted: seq<Node>, rejected: seq<Node>, waits: bool)
    requires forall id :: id in nodes ==> nodes[id].name == id
    ensures Lists(accepted, nodes, replies, NodeAccepted) && Lists(rejected, nodes, replies, NodeRejected)
    ensures !waits <==> forall id :: id in nodes ==> First(replies, id).Some?
    ensures (forall id :: id in nodes ==> OnOneList(nodes[id], accepted, rejected))
       <==> forall id :: id in nodes ==> Answered(replies, id)
  {
    var r := new Registration(nodes);
    for i := 0 to |replies|
      invariant fresh(r) && r.nodes == nodes && r.Valid(replies[..i])
    {
      r.HandleReply(replies[i], replies[..i]);
      assert replies[..i + 1] == replies[..i] + [replies[i]];
    }
    assert replies[..|replies|] == replies;
    accepted, rejected, waits := r.acceptedNodes, r.rejectedNodes, r.waitCount > 0;
    NoneUnanswered(nodes, replies);
    Partition(nodes, replies, accepted, rejected);
  }

  lemma NoneUnanswered(nodes: map<string, Node>, replies: seq<Reply>)
    ensures |Unanswered(nodes, replies)| == 0 <==> forall id :: id in nodes ==> First(replies, id).Some?
  {
    assert |Unanswered(nodes, replies)| == 0 <==> Unanswered(nodes, replies) == map[];
    assert Unanswered(nodes, replies) == map[] <==> forall id :: id in nodes ==> id !in Unanswered(nodes, replies);
  }

  lemma Partition(nodes: map<string, Node>, replies: seq<Reply>, accepted: seq<Node>, rejected: seq<Node>)
    requires forall id :: id in nodes ==> nodes[id].name == id
    requires Lists(accepted, nodes, replies, NodeAccepted) && Lists(rejected, nodes, replies, NodeRejected)
    ensures forall id :: id in nodes ==> (OnOneList(nodes[id], accepted, rejected) <==> Answered(replies, id))
  {
    forall id | id in nodes ensures OnOneList(nodes[id], accepted, rejected) <==> Answered(replies, id) {
      assert nodes[id] in accepted <==> Decided(nodes, replies, nodes[id], NodeAccepted);
      assert nodes[id] in rejected <==> Decided(nodes, replies, nodes[id], NodeRejected);
    }
  }
}
