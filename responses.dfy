/**
 * The read side of the service: rebuilding a line's stations from its connections and
 * shaping lines and stations into responses. Each is an order-preserving map.
 */
module LineResponses {
  import opened LineDomain
  import opened LineStores

  /** The station of each connection, in connection order (`LineStationConnection::getStation`). */
  function StationsOf(connections: seq<Connection>): (r: seq<Station>)
    ensures |r| == |connections|
    ensures forall i :: 0 <= i < |r| ==> r[i] == connections[i].station
  {
    if connections == [] then [] else [connections[0].station] + StationsOf(connections[1..])
  }

  /**
   * getStations: the stations of one line, in stored connection order. They are exactly
   * the stations of the line's stored connections.
   */
  function GetStations(connections: seq<Connection>, lineId: int): (r: seq<Station>)
    ensures forall i :: 0 <= i < |r| ==> Connection(lineId, r[i]) in connections
    ensures forall c :: c in connections && c.lineId == lineId ==> c.station in r
  {
    var own := FindAllByLine(connections, lineId);
    var r := StationsOf(own);
    assert forall c :: c in own ==> c.station in r by {
      forall c | c in own ensures c.station in r {
        var j :| 0 <= j < |own| && own[j] == c;
        assert r[j] == c.station;
      }
    }
    r
  }

  /** getStationResponse: one (id, name) response per station, same length and order. */
  function GetStationResponse(stations: seq<Station>): (r: seq<StationResponse>)
    ensures |r| == |stations|
    ensures forall i :: 0 <= i < |r| ==> r[i].id == stations[i].id && r[i].name == stations[i].name
  {
    if stations == [] then []
    else [StationResponse(stations[0].id, stations[0].name)] + GetStationResponse(stations[1..])
  }

  /** createLineResponse: the line's id, name and color, with one response per given station. */
  function CreateLineResponse(line: Line, stations: seq<Station>): (r: LineResponse)
    ensures r.id == line.id && r.name == line.name && r.color == line.color
    ensures |r.stations| == |stations|
    ensures forall i :: 0 <= i < |stations| ==>
      r.stations[i] == StationResponse(stations[i].id, stations[i].name)
  {
    LineResponse(line.id, line.name, line.color, GetStationResponse(stations))
  }

  /**
   * createLineResponseList: one response per line, in the given order, each the same
   * view that createLineResponse gives for that line and its stored stations.
   */
  function CreateLineResponseList(lines: seq<Line>, connections: seq<Connection>): (r: seq<LineResponse>)
    ensures |r| == |lines|
    ensures forall i :: 0 <= i < |r| ==> r[i] == CreateLineResponse(lines[i], GetStations(connections, lines[i].id))
  {
    if lines == [] then []
    else
      var line := lines[0];
      [LineResponse(line.id, line.name, line.color, GetStationResponse(GetStations(connections, line.id)))]
        + CreateLineResponseList(lines[1..], connections)
  }

  /** The stations of concatenated connections are the stations of each part, in order. */
  lemma StationsOfAppend(a: seq<Connection>, b: seq<Connection>)
    ensures StationsOf(a + b) == StationsOf(a) + StationsOf(b)
  {
  }

  /**
   * GetStations keeps stored connection order and multiplicity: over concatenated
   * connection tables it gives the stations of the first part, then of the second.
   * With GetStationsSingle this fixes its result on every table, one connection at a time.
   */
  lemma GetStationsAppend(a: seq<Connection>, b: seq<Connection>, lineId: int)
    ensures GetStations(a + b, lineId) == GetStations(a, lineId) + GetStations(b, lineId)
  {
    FindAllByLineAppend(a, b, lineId);
    StationsOfAppend(FindAllByLine(a, lineId), FindAllByLine(b, lineId));
  }

  /** A single connection contributes its station exactly when it belongs to the line. */
  lemma GetStationsSingle(c: Connection, lineId: int)
    ensures GetStations([c], lineId) == if c.lineId == lineId then [c.station] else []
  {
    assert [c][1..] == [];
    assert FindAllByLine([c], lineId) == if c.lineId == lineId then [c] else [];
  }

  /** Reading back the connections made from `stations` gives back `stations`. */
  lemma StationsOfCreated(stations: seq<Station>, lineId: int)
    ensures StationsOf(CreateConnectionsList(stations, lineId)) == stations
  {
  }
}
