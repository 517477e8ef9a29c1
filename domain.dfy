/**
 * The entities the line service works on (the `Line`, `Station` and
 * `LineStationConnection` records) and the request/response DTOs, as values.
 */
module LineDomain {

  /** A station as the station directory stores it; the line service never changes one. */
  datatype Station = Station(id: int, name: string)

  /** A stored line: its identifier, assigned when it is saved, and its mutable name and color. */
  datatype Line = Line(id: int, name: string, color: string)

  /** A membership record: one station of one line. It refers to its line by identifier
      and holds the station it was created with. */
  datatype Connection = Connection(lineId: int, station: Station)

  /** The body of a create request: a name, a color and the up and down station ids. */
  datatype LineRequest = LineRequest(name: string, color: string, upStationId: int, downStationId: int)

  /** The body of an update request: the new name and color. */
  datatype LineUpdateRequest = LineUpdateRequest(name: string, color: string)

  datatype StationResponse = StationResponse(id: int, name: string)

  /** The composed view of a line: the line's fields and its stations. */
  datatype LineResponse = LineResponse(id: int, name: string, color: string, stations: seq<StationResponse>)

  /**
   * LineStationConnection.createConnectionsList, whose code is not part of this model:
   * assumed to build one connection per station, in the order given, each owned by
   * the line `lineId`.
   */
  function CreateConnectionsList(stations: seq<Station>, lineId: int): (r: seq<Connection>)
    ensures |r| == |stations|
    ensures forall i :: 0 <= i < |r| ==> r[i].lineId == lineId && r[i].station == stations[i]
  {
    if stations == [] then []
    else [Connection(lineId, stations[0])] + CreateConnectionsList(stations[1..], lineId)
  }
}
