/**
 * The effect chain that playback builds: the player node, an always-present
 * time-pitch node, an optional echo node, an optional reverb node and the
 * engine's output node, attached to an engine and connected in order with
 * the audio file's processing format.
 */
module AudioGraph {
  import opened Wrappers

  type PosReal = r: real | r > 0.0 witness 1.0

  /** The audio file's processing format; every connection carries it unchanged. */
  datatype Format = Format(sampleRate: PosReal, channelCount: nat)

  /** The recorded file: its length in sample frames and its processing format. */
  datatype AudioFile = AudioFile(length: int, processingFormat: Format)

  datatype DistortionPreset = MultiEcho1
  datatype ReverbPreset = Cathedral

  /** A time-pitch unit's own settings before playback overrides them. */
  const DefaultPitch: real := 0.0
  const DefaultRate: PosReal := 1.0
  /** The reverb node's wet/dry mix, in percent. */
  const ReverbMix: real := 50.0

  datatype Node =
    | PlayerNode
    | TimePitchNode(pitch: real, rate: PosReal)
    | EchoNode(preset: DistortionPreset)
    | ReverbNode(reverbPreset: ReverbPreset, wetDryMix: real)
    | OutputNode

  /** The arguments of playSound: each effect is absent unless asked for. */
  datatype EffectRequest = EffectRequest(rate: Option<PosReal>, pitch: Option<real>, echo: bool, reverb: bool)

  const NoEffects := EffectRequest(None, None, false, false)

  datatype Edge = Edge(source: Node, destination: Node, format: Format)

  /** An audio engine: the nodes attached to it in order, its connections in order, and whether it runs. */
  datatype Engine = Engine(attached: seq<Node>, edges: seq<Edge>, running: bool) {

    /** The output node belongs to the engine from the start; every other node must be attached. */
    predicate IsAttached(n: Node) {
      n == OutputNode || n in attached
    }

    function Attach(n: Node): Engine {
      this.(attached := attached + [n])
    }

    /** Connecting a node that is not attached is refused by the engine. */
    function Connect(from: Node, to: Node, format: Format): Engine
      requires IsAttached(from) && IsAttached(to)
    {
      this.(edges := edges + [Edge(from, to, format)])
    }
  }

  const NewEngine := Engine([], [], false)

  ghost predicate Distinct(nodes: seq<Node>) {
    forall i, j :: 0 <= i < j < |nodes| ==> nodes[i] != nodes[j]
  }

  /** The time-pitch node: pitch and rate are overwritten only when given. */
  function TimePitchFor(req: EffectRequest): (n: Node)
    ensures n.TimePitchNode?
    ensures req.pitch == None ==> n.pitch == DefaultPitch
    ensures forall p :: req.pitch == Some(p) ==> n.pitch == p
    ensures req.rate == None ==> n.rate == DefaultRate
    ensures forall r :: req.rate == Some(r) ==> n.rate == r
  {
    var pitch := match req.pitch case Some(p) => p case None => DefaultPitch;
    var rate := match req.rate case Some(r) => r case None => DefaultRate;
    TimePitchNode(pitch, rate)
  }

  /** The ordered node list that initialiseAudio builds for a request. */
  function ChainFor(req: EffectRequest): (nodes: seq<Node>)
    ensures |nodes| == 3 + (if req.echo then 1 else 0) + (if req.reverb then 1 else 0)
    ensures nodes[0] == PlayerNode && nodes[1] == TimePitchFor(req)
    ensures nodes[|nodes| - 1] == OutputNode
    ensures EchoNode(MultiEcho1) in nodes <==> req.echo
    ensures ReverbNode(Cathedral, ReverbMix) in nodes <==> req.reverb
    ensures req.echo ==> nodes[2] == EchoNode(MultiEcho1)
    ensures req.reverb ==> nodes[|nodes| - 2] == ReverbNode(Cathedral, ReverbMix)
    ensures Distinct(nodes)
  {
    [PlayerNode, TimePitchFor(req)]
    + (if req.echo then [EchoNode(MultiEcho1)] else [])
    + (if req.reverb then [ReverbNode(Cathedral, ReverbMix)] else [])
    + [OutputNode]
  }

  /** The connections that join each node of a list to the next, all in one format. */
  function ChainEdges(nodes: seq<Node>, format: Format): (edges: seq<Edge>)
    ensures |edges| == if nodes == [] then 0 else |nodes| - 1
    ensures forall i :: 0 <= i < |edges| ==> edges[i] == Edge(nodes[i], nodes[i + 1], format)
  {
    if |nodes| < 2 then []
    else [Edge(nodes[0], nodes[1], format)] + ChainEdges(nodes[1..], format)
  }

  /** The engine as initialiseAudio leaves it before starting it. */
  function GraphFor(format: Format, req: EffectRequest): Engine {
    var nodes := ChainFor(req);
    Engine(nodes[..|nodes| - 1], ChainEdges(nodes, format), false)
  }

  /** An engine whose attachments and connections are those of some request's chain. */
  ghost predicate IsChainGraph(e: Engine) {
    exists format: Format, req: EffectRequest :: e.(running := false) == GraphFor(format, req)
  }

  /**
   * The first half of initialiseAudio: builds the node list for a request,
   * attaching every node but the output to a new engine as it goes.
   */
  method AttachChain(req: EffectRequest) returns (engine: Engine, nodes: seq<Node>)
    ensures nodes == ChainFor(req)
    ensures engine == Engine(nodes[..|nodes| - 1], [], false)
  {
    engine := NewEngine;
    nodes := [];

    engine := engine.Attach(PlayerNode);
    nodes := nodes + [PlayerNode];

    var timePitch := TimePitchNode(DefaultPitch, DefaultRate);
    if req.pitch.Some? {
      timePitch := timePitch.(pitch := req.pitch.value);
    }
    if req.rate.Some? {
      timePitch := timePitch.(rate := req.rate.value);
    }
    assert timePitch == TimePitchFor(req);
    engine := engine.Attach(timePitch);
    nodes := nodes + [timePitch];

    if req.echo {
      var echo := EchoNode(MultiEcho1);
      engine := engine.Attach(echo);
      nodes := nodes + [echo];
    }

    if req.reverb {
      var reverb := ReverbNode(Cathedral, ReverbMix);
      engine := engine.Attach(reverb);
      nodes := nodes + [reverb];
    }

    assert engine.attached == nodes;
    nodes := nodes + [OutputNode];
  }

  /**
   * The second half of initialiseAudio: joins each node of the list to the
   * next, in the given format, on an engine to which every node but the last
   * is attached.
   */
  method ConnectChain(attachedEngine: Engine, nodes: seq<Node>, format: Format) returns (engine: Engine)
    requires |nodes| >= 1 && nodes[|nodes| - 1] == OutputNode
    requires attachedEngine.attached == nodes[..|nodes| - 1] && attachedEngine.edges == []
    ensures engine == attachedEngine.(edges := ChainEdges(nodes, format))
  {
    engine := attachedEngine;
    for i := 0 to |nodes| - 1
      invariant engine == attachedEngine.(edges := engine.edges)
      invariant |engine.edges| == i
      invariant forall k :: 0 <= k < i ==> engine.edges[k] == Edge(nodes[k], nodes[k + 1], format)
    {
      assert nodes[i] == engine.attached[i];
      assert i + 1 < |nodes| - 1 ==> nodes[i + 1] == engine.attached[i + 1];
      engine := engine.Connect(nodes[i], nodes[i + 1], format);
    }
    var expected := ChainEdges(nodes, format);
    assert |engine.edges| == |expected|;
    forall k | 0 <= k < |expected|
      ensures engine.edges[k] == expected[k]
    {
      assert expected[k] == Edge(nodes[k], nodes[k + 1], format);
      assert engine.edges[k] == Edge(nodes[k], nodes[k + 1], format);
    }
  }

  /**
   * initialiseAudio's graph: the chain for the request with every node but
   * the output attached, then one connection from each node to the next.
   */
  method BuildGraph(format: Format, req: EffectRequest) returns (engine: Engine, nodes: seq<Node>)
    ensures nodes == ChainFor(req)
    ensures engine == GraphFor(format, req)
  {
    engine, nodes := AttachChain(req);
    engine := ConnectChain(engine, nodes, format);
  }

  /** The output node is never attached by this code, and every other node of the chain is, before any connection. */
  lemma GraphAttachesAllButOutput(format: Format, req: EffectRequest)
    ensures OutputNode !in GraphFor(format, req).attached
    ensures GraphFor(format, req).attached + [OutputNode] == ChainFor(req)
    ensures forall n :: n in ChainFor(req) ==> GraphFor(format, req).IsAttached(n)
    ensures !GraphFor(format, req).running
  {
  }

  /**
   * The connections form one straight line from the player to the output:
   * |chain| - 1 edges, each in the file's format, no node with two outgoing or
   * two incoming edges, the player never a destination and the output never a source.
   */
  lemma GraphIsLinear(format: Format, req: EffectRequest)
    ensures |GraphFor(format, req).edges| == |ChainFor(req)| - 1
    ensures forall e :: e in GraphFor(format, req).edges ==> e.format == format
    ensures GraphFor(format, req).edges[0].source == PlayerNode
    ensures GraphFor(format, req).edges[|GraphFor(format, req).edges| - 1].destination == OutputNode
    ensures forall i, j :: 0 <= i < j < |GraphFor(format, req).edges| ==>
      GraphFor(format, req).edges[i].source != GraphFor(format, req).edges[j].source &&
      GraphFor(format, req).edges[i].destination != GraphFor(format, req).edges[j].destination
    ensures forall e :: e in GraphFor(format, req).edges ==> e.destination != PlayerNode && e.source != OutputNode
    ensures forall i :: 0 <= i < |GraphFor(format, req).edges| - 1 ==>
      GraphFor(format, req).edges[i].destination == GraphFor(format, req).edges[i + 1].source
  {
  }

  /** With no effect requested the chain is player, a pass-through time-pitch node, output. */
  lemma NoEffectsChain(format: Format)
    ensures ChainFor(NoEffects) == [PlayerNode, TimePitchNode(DefaultPitch, DefaultRate), OutputNode]
    ensures GraphFor(format, NoEffects).edges ==
      [Edge(PlayerNode, TimePitchNode(DefaultPitch, DefaultRate), format),
       Edge(TimePitchNode(DefaultPitch, DefaultRate), OutputNode, format)]
  {
  }
}
