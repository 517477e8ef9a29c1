/**
 * Clients of the line service that combine its operations, using nothing but their
 * contracts: what a caller observes across several requests.
 */
module LineScenarios {
  import opened Wrappers
  import opened LineDomain
  import opened LineStores
  import opened LineResponses
  import opened LineServiceModel

  /** Listing twice with no write in between gives equal results. */
  method ListTwice(service: LineService) returns (first: seq<LineResponse>, second: seq<LineResponse>)
    requires service.Valid()
    ensures first == second
  {
    first := service.FindAllLines();
    second := service.FindAllLines();
    forall i | 0 <= i < |first| ensures first[i] == second[i] {
      assert first[i].stations == second[i].stations;
    }
  }

  /** A line that was saved reads back as the view the save returned. */
  method SaveThenGet(service: LineService, request: LineRequest)
    returns (saved: Result<LineResponse, Error>, got: Result<LineResponse, Error>)
    requires service.Valid()
    modifies service
    ensures service.Valid()
    ensures saved.Success? ==> got == saved
    ensures saved.Success? ==>
      && request.upStationId in service.stations && request.downStationId in service.stations
      && saved.value.stations == [StationResponse(request.upStationId, service.stations[request.upStationId].name),
                               StationResponse(request.downStationId, service.stations[request.downStationId].name)]
  {
    saved := service.SaveLine(request);
    if saved.Failure? {
      got := saved;
      return;
    }
    got := service.GetLineResponse(saved.value.id);
  }

  /** After an update the line reads back with the new name and color and its old stations. */
  method UpdateThenGet(service: LineService, lineId: int, request: LineUpdateRequest)
    returns (before: Result<LineResponse, Error>, updated: Outcome<Error>, after: Result<LineResponse, Error>)
    requires service.Valid()
    modifies service
    ensures service.Valid()
    ensures updated.Pass? <==> before.Success?
    ensures updated.Pass? ==>
      after == Success(LineResponse(lineId, request.name, request.color, before.value.stations))
    ensures updated.Fail? ==> updated.error == NoSuchLine(lineId)
  {
    before := service.GetLineResponse(lineId);
    updated := service.UpdateLine(lineId, request);
    after := service.GetLineResponse(lineId);
  }

  /** After a deletion the line is not found any more, and no connection names it. */
  method DeleteThenGet(service: LineService, lineId: int)
    returns (deleted: Outcome<Error>, got: Result<LineResponse, Error>)
    requires service.Valid()
    modifies service
    ensures service.Valid()
    ensures got == Failure(NoSuchLine(lineId))
    ensures FindAllByLine(service.connections, lineId) == []
  {
    deleted := service.DeleteLine(lineId);
    got := service.GetLineResponse(lineId);
    FindAllByLineNone(service.connections, lineId);
  }

  /** Create a line over two stations, read it back, delete it, and look for it again. */
  method TwoStationLine()
  {
    var gangnam, yeoksam := Station(1, "강남"), Station(2, "역삼");
    var service := new LineService(map[1 := gangnam, 2 := yeoksam]);
    var saved := service.SaveLine(LineRequest("2호선", "green", 1, 2));
    assert saved.Success?;
    assert saved.value.id == 1 && saved.value.name == "2호선" && saved.value.color == "green";
    assert |saved.value.stations| == 2;
    assert saved.value.stations[0] == StationResponse(1, "강남");
    assert saved.value.stations[1] == StationResponse(2, "역삼");
    var view := LineResponse(1, "2호선", "green", [StationResponse(1, "강남"), StationResponse(2, "역삼")]);
    assert saved.value.stations == view.stations;
    assert saved == Success(view);
    var got := service.GetLineResponse(1);
    assert got == saved;
    var deleted := service.DeleteLine(1);
    assert deleted == Pass;
    got := service.GetLineResponse(1);
    assert got == Failure(NoSuchLine(1));
  }

  /** Creating a line over a station the directory does not know fails and persists nothing. */
  method UnknownStationLine()
  {
    var service := new LineService(map[1 := Station(1, "강남")]);
    var unknown := service.SaveLine(LineRequest("3호선", "orange", 1, 3));
    assert unknown == Failure(UnknownStation);
    assert service.lines == map[] && service.connections == [];
  }
}
