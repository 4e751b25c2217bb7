/**
 * The flow service: creating a flow between two applications with its ordered list of
 * technologies, and projecting stored flows to their transfer objects.
 *
 * The flow repository is the list of flows it has saved, in storage order; the technology
 * service is a stand-in that creates a technology from its request by a fixed function and
 * records every request it receives.
 */
module Flows {
  import opened Wrappers
  import opened FlowApps

  /** A technology as the technology service returns it once saved. */
  datatype Techno = Techno(id: int, name: string, description: string)

  /** A request to create a technology. */
  datatype TechnoDto = TechnoDto(name: string, description: string)

  /** The body of a request to create a flow. */
  datatype FlowDtoInput = FlowDtoInput(
    name: string,
    description: string,
    sourceAppId: int,
    destinationAppId: int,
    flowTechnos: seq<TechnoDto>)

  /** A flow as the service hands it out: its technologies in stored order. */
  datatype FlowDtoOutput = FlowDtoOutput(
    name: string,
    description: string,
    sourceApp: Option<FlowApp>,
    destinationApp: Option<FlowApp>,
    flowTechnos: seq<Techno>)

  /** The flow entity; its fields are filled one by one before it is saved. */
  class Flow {
    var name: string
    var description: string
    var sourceApp: Option<FlowApp>
    var destApp: Option<FlowApp>
    var flowTechnos: seq<FlowTechnoOrder>

    /** `new Flow()`: nothing is set yet. */
    constructor ()
      ensures name == [] && description == []
      ensures sourceApp == None && destApp == None && flowTechnos == []
    {
      name := [];
      description := [];
      sourceApp := None;
      destApp := None;
      flowTechnos := [];
    }
  }

  /** The join row placing a technology at a position of a flow. */
  datatype FlowTechnoOrder = FlowTechnoOrder(flow: Flow, position: int, techno: Techno)

  /** The rows `saveNewFlow` builds: row `i` places the `i`-th technology at position `i`
      of `flow`. */
  function Orders(flow: Flow, technos: seq<Techno>): (rows: seq<FlowTechnoOrder>)
    ensures |rows| == |technos|
    ensures forall i :: 0 <= i < |rows| ==>
              rows[i].flow == flow && rows[i].position == i && rows[i].techno == technos[i]
  {
    if technos == [] then []
    else Orders(flow, technos[..|technos| - 1])
         + [FlowTechnoOrder(flow, |technos| - 1, technos[|technos| - 1])]
  }

  /** The technologies of a list of rows, in row order. */
  function TechnosOf(rows: seq<FlowTechnoOrder>): (technos: seq<Techno>)
    ensures |technos| == |rows|
    ensures forall i :: 0 <= i < |rows| ==> technos[i] == rows[i].techno
  {
    if rows == [] then []
    else TechnosOf(rows[..|rows| - 1]) + [rows[|rows| - 1].techno]
  }

  /** Reading the technologies back from the rows built for them gives them back in order. */
  lemma OrdersRoundTrip(flow: Flow, technos: seq<Techno>)
    ensures TechnosOf(Orders(flow, technos)) == technos
  {
  }

  /** `transformFlowInFlowDTO`: name, description and both applications copied, and the
      technologies of the rows in stored order, without sorting by position. */
  function TransformFlowInFlowDto(flow: Flow): (dto: FlowDtoOutput)
    reads flow
    ensures dto.name == flow.name && dto.description == flow.description
    ensures dto.sourceApp == flow.sourceApp && dto.destinationApp == flow.destApp
    ensures |dto.flowTechnos| == |flow.flowTechnos|
    ensures forall i :: 0 <= i < |flow.flowTechnos| ==>
              dto.flowTechnos[i] == flow.flowTechnos[i].techno
  {
    FlowDtoOutput(flow.name, flow.description, flow.sourceApp, flow.destApp,
                  TechnosOf(flow.flowTechnos))
  }

  /** The projection `getAllWithDto` applies: one transfer object per flow, in order. */
  function ToDtos(flows: seq<Flow>): (dtos: seq<FlowDtoOutput>)
    reads set f | f in flows
    ensures |dtos| == |flows|
    ensures forall i :: 0 <= i < |flows| ==> dtos[i] == TransformFlowInFlowDto(flows[i])
  {
    if flows == [] then []
    else ToDtos(flows[..|flows| - 1]) + [TransformFlowInFlowDto(flows[|flows| - 1])]
  }

  /** Projecting a repository that grew by one flow adds that flow's transfer object. */
  lemma ToDtosSnoc(flows: seq<Flow>, f: Flow)
    ensures ToDtos(flows + [f]) == ToDtos(flows) + [TransformFlowInFlowDto(f)]
  {
  }

  /** The technology service: it creates each requested technology with `create` and keeps
      every request, oldest first. */
  class FlowTechnoService {
    const create: TechnoDto -> Techno
    var requests: seq<TechnoDto>

    constructor (create: TechnoDto -> Techno)
      ensures this.create == create && requests == []
    {
      this.create := create;
      requests := [];
    }

    /** `saveNewTechno`. */
    method SaveNewTechno(dto: TechnoDto) returns (t: Techno)
      modifies this
      ensures t == create(dto)
      ensures requests == old(requests) + [dto]
    {
      requests := requests + [dto];
      t := create(dto);
    }
  }

  class FlowService {
    const appService: FlowAppService
    const technoService: FlowTechnoService
    /** The flow repository: every saved flow, in storage order. */
    var flows: seq<Flow>

    constructor (appService: FlowAppService, technoService: FlowTechnoService)
      ensures this.appService == appService && this.technoService == technoService
      ensures flows == []
    {
      this.appService := appService;
      this.technoService := technoService;
      flows := [];
    }

    /** `getAllWithDto`: one transfer object per stored flow, in repository order. */
    method GetAllWithDto() returns (dtos: seq<FlowDtoOutput>)
      ensures |dtos| == |flows|
      ensures forall i :: 0 <= i < |flows| ==>
                && dtos[i].name == flows[i].name
                && dtos[i].flowTechnos == TechnosOf(flows[i].flowTechnos)
      ensures dtos == ToDtos(flows)
    {
      dtos := ToDtos(flows);
    }

    /** `Promise.all` over `saveNewTechno`, taken one request at a time in request order. */
    method SaveTechnos(dtos: seq<TechnoDto>) returns (technos: seq<Techno>)
      modifies technoService
      ensures |technos| == |dtos|
      ensures forall k :: 0 <= k < |dtos| ==> technos[k] == technoService.create(dtos[k])
      ensures technoService.requests == old(technoService.requests) + dtos
    {
      technos := [];
      var i := 0;
      while i < |dtos|
        invariant 0 <= i <= |dtos|
        invariant |technos| == i
        invariant forall k :: 0 <= k < i ==> technos[k] == technoService.create(dtos[k])
        invariant technoService.requests == old(technoService.requests) + dtos[..i]
      {
        var t := technoService.SaveNewTechno(dtos[i]);
        technos := technos + [t];
        i := i + 1;
      }
      assert dtos[..i] == dtos;
    }

    /**
     * `saveNewFlow`. Every requested technology is created first, in request order; the
     * call fails with BadRequest, before anything is saved, when either application id is
     * unknown; otherwise the flow is saved with its technologies at positions 0, 1, ...
     */
    method SaveNewFlow(dto: FlowDtoInput) returns (r: Result<Flow, ServiceError>)
      requires appService.Valid()
      modifies this, technoService
      ensures technoService.requests == old(technoService.requests) + dto.flowTechnos
      ensures r.Err? <==>
                dto.sourceAppId !in appService.apps || dto.destinationAppId !in appService.apps
      ensures r.Err? ==> r.error == BadRequest && flows == old(flows)
      ensures r.Ok? ==>
        && fresh(r.value)
        && flows == old(flows) + [r.value]
        && r.value.name == dto.name && r.value.description == dto.description
        && r.value.sourceApp == Some(appService.apps[dto.sourceAppId])
        && r.value.destApp == Some(appService.apps[dto.destinationAppId])
        && |r.value.flowTechnos| == |dto.flowTechnos|
        && (forall i :: 0 <= i < |dto.flowTechnos| ==>
              r.value.flowTechnos[i] ==
                FlowTechnoOrder(r.value, i, technoService.create(dto.flowTechnos[i])))
    {
      var flow := new Flow();

      var technos := SaveTechnos(dto.flowTechnos);
      var technosOrder := Orders(flow, technos);

      flow.name := dto.name;
      flow.description := dto.description;
      var source := appService.GetOneById(dto.sourceAppId);
      if source.None? {
        return Err(BadRequest);
      }
      flow.sourceApp := source;
      var destination := appService.GetOneById(dto.destinationAppId);
      if destination.None? {
        return Err(BadRequest);
      }
      flow.destApp := destination;
      flow.flowTechnos := technosOrder;

      flows := flows + [flow];
      return Ok(flow);
    }

    /** A flow saved by `saveNewFlow` is listed last by `getAllWithDto`, with the created
        technologies in request order. */
    method SaveNewFlowThenGetAll(dto: FlowDtoInput)
      returns (r: Result<Flow, ServiceError>, dtos: seq<FlowDtoOutput>)
      requires appService.Valid()
      modifies this, technoService
      ensures r.Err? ==> dtos == old(ToDtos(flows))
      ensures r.Ok? ==>
        && |dtos| == |old(flows)| + 1
        && dtos[..|old(flows)|] == old(ToDtos(flows))
        && dtos[|old(flows)|].name == dto.name
        && dtos[|old(flows)|].description == dto.description
        && |dtos[|old(flows)|].flowTechnos| == |dto.flowTechnos|
        && (forall i :: 0 <= i < |dto.flowTechnos| ==>
              dtos[|old(flows)|].flowTechnos[i] == technoService.create(dto.flowTechnos[i]))
    {
      ghost var before := flows;
      r := SaveNewFlow(dto);
      if r.Ok? {
        ToDtosSnoc(before, r.value);
      }
      dtos := GetAllWithDto();
    }
  }
}
