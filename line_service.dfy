/**
 * The line service: a line table, the connection table and a read-only station
 * directory, and the five public operations over them. Each write is one
 * transaction: when it fails, every table is left as it was.
 */
module LineServiceModel {
  import opened Wrappers
  import opened LineDomain
  import opened LineStores
  import opened LineResponses

  /** Why an operation failed: `orElseThrow` on a missing line, or a station id the directory does not know. */
  datatype Error = NoSuchLine(lineId: int) | UnknownStation

  class LineService {
    /** The station directory; the service only reads it. */
    const stations: map<int, Station>
    /** The line table, by identifier. */
    var lines: map<int, Line>
    /** The order in which the line table returns its lines: order of creation. */
    var order: seq<int>
    /** The connection table, in stored order. */
    var connections: seq<Connection>
    /** The identifier the line table hands out next. */
    var nextId: int

    /** The cross-table invariant: every connection names a stored line and a known station. */
    ghost predicate Valid()
      reads this
    {
      && DirectoryOk(stations)
      && LineTableOk(lines, order, nextId)
      && ReferencesOk(connections, lines, stations)
    }

    /** Empty tables over the given station directory; identifiers start at 1. */
    constructor (directory: map<int, Station>)
      requires DirectoryOk(directory)
      ensures Valid()
      ensures stations == directory && lines == map[] && order == [] && connections == []
      ensures nextId == 1
    {
      stations := directory;
      lines := map[];
      order := [];
      connections := [];
      nextId := 1;
    }

    /** getLine: the stored line, or `NoSuchLine` when the identifier is absent. */
    function GetLine(lineId: int): (r: Result<Line, Error>)
      reads this
      ensures r.Success? <==> lineId in lines
      ensures r.Success? ==> r.value == lines[lineId]
      ensures r.Failure? ==> r.error == NoSuchLine(lineId)
    {
      if lineId in lines then Success(lines[lineId]) else Failure(NoSuchLine(lineId))
    }

    /**
     * saveLine. The line is persisted first, then the up and down stations are
     * resolved; when one does not resolve the transaction rolls back. On success there
     * is one new line, with a fresh identifier and the requested name and color, and
     * its connections are the two stations, up then down; nothing else changes.
     */
    method SaveLine(request: LineRequest) returns (r: Result<LineResponse, Error>)
      requires Valid()
      modifies this
      ensures Valid()
      ensures r.Success? <==> request.upStationId in stations && request.downStationId in stations
      ensures r.Failure? ==> r.error == UnknownStation
      ensures r.Failure? ==>
        lines == old(lines) && order == old(order) && connections == old(connections) && nextId == old(nextId)
      ensures r.Success? ==>
        var id := old(nextId);
        var requested := [stations[request.upStationId], stations[request.downStationId]];
        && id !in old(lines)
        && lines == old(lines)[id := Line(id, request.name, request.color)]
        && order == old(order) + [id]
        && nextId > id
        && connections == old(connections) + CreateConnectionsList(requested, id)
        && GetStations(connections, id) == requested
        && (forall other :: other != id ==> FindAllByLine(connections, other) == FindAllByLine(old(connections), other))
        && r.value == CreateLineResponse(lines[id], GetStations(connections, id))
    {
      // The transaction's snapshot, restored on rollback.
      var lines0, order0, connections0, nextId0 := lines, order, connections, nextId;

      // Persist the new line under a fresh identifier.
      var savedLine := Line(nextId, request.name, request.color);
      forall i | 0 <= i < |order| ensures order[i] < nextId {
        assert order[i] in order;
      }
      lines := lines[savedLine.id := savedLine];
      order := order + [savedLine.id];
      nextId := nextId + 1;
      assert Valid();

      var stationIds := [request.upStationId, request.downStationId];
      var found := FindStationsByIdList(stations, stationIds);
      if found.None? {
        lines, order, connections, nextId := lines0, order0, connections0, nextId0;
        return Failure(UnknownStation);
      }
      var resolved := found.value;
      assert stationIds[0] in stations && stationIds[1] in stations;
      assert resolved == [stations[request.upStationId], stations[request.downStationId]];

      var newConnections := CreateConnectionsList(resolved, savedLine.id);
      connections := connections + newConnections;

      forall other | true
        ensures FindAllByLine(connections, savedLine.id) == newConnections
        ensures other != savedLine.id ==> FindAllByLine(connections, other) == FindAllByLine(connections0, other)
      {
        SavedConnectionsReadBack(connections0, resolved, savedLine.id, other);
      }
      StationsOfCreated(resolved, savedLine.id);
      r := Success(CreateLineResponse(savedLine, resolved));
    }

    /** findAllLines: one response per stored line, in the store's order; changes nothing. */
    method FindAllLines() returns (r: seq<LineResponse>)
      requires Valid()
      ensures |r| == |order|
      ensures forall i :: 0 <= i < |r| ==>
        && r[i].id == order[i]
        && r[i].name == lines[order[i]].name
        && r[i].color == lines[order[i]].color
        && r[i].stations == GetStationResponse(GetStations(connections, order[i]))
      ensures forall i, j :: 0 <= i < j < |r| ==> r[i].id < r[j].id
    {
      forall i | 0 <= i < |order| ensures order[i] in lines {
        assert order[i] in order;
      }
      var all := FindAll(lines, order);
      r := CreateLineResponseList(all, connections);
    }

    /** getLineResponse: the view of one line, or `NoSuchLine`; changes nothing. */
    method GetLineResponse(lineId: int) returns (r: Result<LineResponse, Error>)
      requires Valid()
      ensures r.Failure? <==> lineId !in lines
      ensures r.Failure? ==> r.error == NoSuchLine(lineId)
      ensures r.Success? ==>
        && r.value.id == lineId
        && r.value.name == lines[lineId].name
        && r.value.color == lines[lineId].color
        && r.value.stations == GetStationResponse(GetStations(connections, lineId))
    {
      var found := GetLine(lineId);
      if found.Failure? {
        return Failure(found.error);
      }
      var line := found.value;
      var lineStations := GetStations(connections, line.id);
      r := Success(CreateLineResponse(line, lineStations));
    }

    /**
     * updateLine: the line gets the requested name and color in place; its identifier,
     * the other lines and all connections stay as they were. `NoSuchLine` changes nothing.
     */
    method UpdateLine(lineId: int, request: LineUpdateRequest) returns (r: Outcome<Error>)
      requires Valid()
      modifies this`lines
      ensures Valid()
      ensures r.Pass? <==> lineId in old(lines)
      ensures r.Fail? ==> r.error == NoSuchLine(lineId) && lines == old(lines)
      ensures r.Pass? ==> lines == old(lines)[lineId := Line(lineId, request.name, request.color)]
      ensures order == old(order) && connections == old(connections) && nextId == old(nextId)
    {
      var found := GetLine(lineId);
      if found.Failure? {
        return Fail(found.error);
      }
      var line := found.value;
      // Change the stored line in place: first its name, then its color.
      line := line.(name := request.name);
      lines := lines[lineId := line];
      line := line.(color := request.color);
      lines := lines[lineId := line];
      r := Pass;
    }

    /**
     * deleteLine: the line's connections are deleted first, then the line. Afterwards no
     * connection names the line, the line is gone, and every other line keeps its
     * connections. `NoSuchLine` changes nothing.
     */
    method DeleteLine(lineId: int) returns (r: Outcome<Error>)
      requires Valid()
      modifies this`lines, this`order, this`connections
      ensures Valid()
      ensures r.Pass? <==> lineId in old(lines)
      ensures r.Fail? ==>
        r.error == NoSuchLine(lineId) && lines == old(lines) && order == old(order) && connections == old(connections)
      ensures r.Pass? ==>
        && lines == old(lines) - {lineId}
        && order == RemoveId(old(order), lineId)
        && connections == DeleteAllByLine(old(connections), lineId)
        && (forall c :: c in connections ==> c.lineId != lineId)
        && (forall other :: other != lineId ==> FindAllByLine(connections, other) == FindAllByLine(old(connections), other))
      ensures nextId == old(nextId)
    {
      var found := GetLine(lineId);
      if found.Failure? {
        return Fail(found.error);
      }
      var line := found.value;
      var connections0 := connections;

      // Delete the line's connections first.
      connections := DeleteAllByLine(connections, line.id);
      ConnectionsFirstKeepsReferences(connections0, lines, stations, lineId);
      // the state between the two deletions keeps every reference valid
      assert Valid();

      // Then delete the line itself.
      lines := lines - {lineId};
      RemoveIdIncreasing(order, lineId);
      order := RemoveId(order, lineId);

      forall other | other != lineId
        ensures FindAllByLine(connections, other) == FindAllByLine(connections0, other)
      {
        FindAllAfterDelete(connections0, lineId, other);
      }
      r := Pass;
    }
  }
}
