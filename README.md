# Line service of a subway map: a verified model

This project models the line service of a subway-map application
(`subway.line.service.LineService`). The service keeps lines (an identifier, a
name and a color), the connection records that make stations members of a line,
and reads stations from a station directory it never changes. It offers five
operations: save a line with its up and down stations, list all lines, read one
line, update a line's name and color, and delete a line with its connections.

The model is a Dafny class, `LineServiceModel.LineService`, whose fields are the
tables: `lines: map<int, Line>`, `order: seq<int>` (the order in which the line
table returns its lines), `connections: seq<Connection>`, the identifier counter
`nextId`, and the constant station directory `stations: map<int, Station>`. Its
invariant `Valid()` is the cross-table consistency the service relies on: every
connection names a stored line and holds a station of the directory. Every
operation preserves it. Each write runs as one transaction: a failing write
leaves all tables as they were.

The read side is pure: rebuilding a line's stations from its connections and
shaping lines and stations into responses are order-preserving functions
(module `LineResponses`). The record stores are functions over table contents
(module `LineStores`). `LineScenarios` holds clients that chain the operations
and prove what a caller observes across requests.

Modelling decisions:

- Identifiers are unbounded `int`s. The line table hands out `nextId`, starting at 1,
  and returns its lines in creation order, which is ascending identifier order.
- A `Connection` holds its line's identifier and the `Station` value. In the source
  it refers to both entities, and `getStation` returns the station entity.
- `LineStationConnection.createConnectionsList` is not part of this model. It is
  assumed to build one connection per resolved station, in order (`CreateConnectionsList`).
- `StationService.findStationsByIdList` is not part of this model. It is assumed to
  fail when some identifier is unknown, and otherwise to return the stations in the
  order of the identifiers (`FindStationsByIdList`).
- `saveLine` is modelled as written: the line is persisted first (line 37), then the
  stations are resolved. On failure the method restores its snapshot of all tables,
  which is what the method's transaction rollback does. Resolving the stations before
  persisting would make the rollback unnecessary; the code does not do that, and the
  model follows the code. The observable result is the same either way: a failed save persists nothing.
- `getLine` throws on a missing line (`orElseThrow`); the model returns
  `Failure(NoSuchLine(id))` or `Fail(NoSuchLine(id))`. An unknown station gives `UnknownStation`.
- `updateLine` changes the stored entity in place (`updateName`, then `updateColor`).
  The model writes the line table twice, once per field.
- `deleteLine` removes the connections first. The method asserts `Valid()` between
  the two deletions. `LineFirstLeavesDangling` shows that the opposite order would
  break the invariant whenever the line has connections.
- The service adds no check that the up and down station identifiers differ. Under the
  assumed behaviour of `FindStationsByIdList` (one station per requested identifier), a
  request with up equal to down gives the line two connections to the same station. What
  the real station lookup does with a repeated identifier is not part of this model.

## Model

| member | source | states |
|---|---|---|
| `LineDomain.CreateConnectionsList` | src/main/java/subway/line/service/LineService.java:41 | one connection per station, same length and order, each owned by the given line (assumed behaviour of the helper) |
| `LineStores.FindStationsByIdList` | src/main/java/subway/line/service/LineService.java:39-40 | succeeds iff every identifier is in the directory; then returns exactly the directory's stations, one per identifier, in request order |
| `LineStores.FindAll` | src/main/java/subway/line/service/LineService.java:48 | one stored line per identifier of the store's order, in that order |
| `LineStores.FindAllByLine` | src/main/java/subway/line/service/LineService.java:97 | returns only stored connections of the line, and every stored connection of the line |
| `LineStores.DeleteAllByLine` | src/main/java/subway/line/service/LineService.java:68 | what remains are stored connections of other lines, and every stored connection of another line remains |
| `LineStores.RemoveId` | src/main/java/subway/line/service/LineService.java:69 | the store's order keeps exactly the identifiers other than the deleted one |
| `LineStores.RemoveIdIncreasing` | src/main/java/subway/line/service/LineService.java:69 | deleting a line keeps the store's order free of duplicates and ascending |
| `LineStores.FindAllByLineAppend` | src/main/java/subway/line/service/LineService.java:42 | looking up a line's connections after appending a batch gives the old ones followed by the batch's ones |
| `LineStores.FindAllByLineOwn` | src/main/java/subway/line/service/LineService.java:41-42 | a batch made for one line is read back whole and in order |
| `LineStores.FindAllAfterDelete` | src/main/java/subway/line/service/LineService.java:68 | after deleting a line's connections that line has none and every other line keeps its connections in order |
| `LineStores.SavedConnectionsReadBack` | src/main/java/subway/line/service/LineService.java:37-42 | the connections saved for a new line are exactly what its lookup returns; other lines read back what they had |
| `LineStores.ConnectionsFirstKeepsReferences` | src/main/java/subway/line/service/LineService.java:66-70 | removing the connections first keeps every reference valid, both between the two deletions and after the line is gone |
| `LineStores.LineFirstLeavesDangling` | src/main/java/subway/line/service/LineService.java:68-69 | deleting a line that still has connections would leave a connection naming a missing line |
| `LineResponses.StationsOf` | src/main/java/subway/line/service/LineService.java:98 | the station of each connection, same length and order |
| `LineResponses.GetStations` | src/main/java/subway/line/service/LineService.java:96-99 | the stations returned are exactly the stations of the line's stored connections |
| `LineResponses.GetStationsAppend` | src/main/java/subway/line/service/LineService.java:96-99 | the stations of a line over concatenated connection tables are those of the first part followed by those of the second: stored order and repetitions are kept |
| `LineResponses.GetStationsSingle` | src/main/java/subway/line/service/LineService.java:96-99 | one connection yields its station exactly when it belongs to the line |
| `LineResponses.GetStationResponse` | src/main/java/subway/line/service/LineService.java:90-94 | same length and order as the input, each response carrying the station's id and name |
| `LineResponses.CreateLineResponse` | src/main/java/subway/line/service/LineService.java:85-88 | id, name and color copied from the line; one station response per station, in order |
| `LineResponses.CreateLineResponseList` | src/main/java/subway/line/service/LineService.java:76-83 | one response per line, in order, each equal to the single-line view of that line and its stored stations |
| `LineResponses.StationsOfCreated` | src/main/java/subway/line/service/LineService.java:41 | reading the stations of freshly built connections gives back the stations they were built from |
| `LineServiceModel.LineService.constructor` | src/main/java/subway/line/service/LineService.java:27-32 | empty line and connection tables over a consistent station directory; the invariant holds |
| `LineServiceModel.LineService.GetLine` | src/main/java/subway/line/service/LineService.java:72-74 | succeeds iff the identifier is stored, with that line; otherwise fails with `NoSuchLine` |
| `LineServiceModel.LineService.SaveLine` | src/main/java/subway/line/service/LineService.java:34-45 | succeeds iff both station ids resolve; on success adds one line with a fresh id and the requested name and color, appends its connections to up then down station, leaves the other lines' connections as they were, and returns the view that reading the line back gives; on failure every table is unchanged; the invariant is preserved |
| `LineServiceModel.LineService.FindAllLines` | src/main/java/subway/line/service/LineService.java:47-50 | one response per stored line in store order (ascending ids in this in-memory table), each with the line's id, name, color and stored stations; changes nothing |
| `LineServiceModel.LineService.GetLineResponse` | src/main/java/subway/line/service/LineService.java:52-56 | fails with `NoSuchLine` iff the line is absent; otherwise the line's id, name, color and its stations in stored connection order; changes nothing |
| `LineServiceModel.LineService.UpdateLine` | src/main/java/subway/line/service/LineService.java:58-63 | on a stored line sets exactly its name and color, keeping its id, the other lines and all connections; otherwise fails with `NoSuchLine` and changes nothing |
| `LineServiceModel.LineService.DeleteLine` | src/main/java/subway/line/service/LineService.java:65-70 | on a stored line removes the line and every connection naming it, keeping the other lines' connections in order; otherwise fails with `NoSuchLine` and changes nothing; the invariant holds afterwards and between the two deletions |
| `LineScenarios.ListTwice` | src/main/java/subway/line/service/LineService.java:47-50 | listing twice with no write in between gives equal results |
| `LineScenarios.SaveThenGet` | src/main/java/subway/line/service/LineService.java:34-56 | a saved line reads back as the view the save returned, with the up and down stations in that order |
| `LineScenarios.UpdateThenGet` | src/main/java/subway/line/service/LineService.java:52-63 | after an update the line reads back with the new name and color and the stations it had before |
| `LineScenarios.DeleteThenGet` | src/main/java/subway/line/service/LineService.java:52-70 | after a deletion reading the line fails with `NoSuchLine` and no connection names it |

## Left out

- Spring wiring (`@Service`, constructor injection) and the read-only transaction flag: the model has plain methods; read operations have no `modifies` clause, so they cannot change state.
- Transactions are modelled only as "a failing write changes nothing". Isolation, concurrency and last-writer-wins races between requests are not modelled.
- The persistence framework: flush timing, lazy loading and dirty checking, and the identifier generation strategy. The repositories are in-memory tables in the class. The id counter is rolled back with the rest of the state on a failed save; a real database sequence may not roll back.
- `LineStationConnection.createConnectionsList` and `StationService.findStationsByIdList` are not part of this model; their assumed behaviour is stated above.
- Store-level failures (I/O, constraint violations) are not modelled; every store call succeeds.
- The DTOs are plain datatypes; serialization and HTTP status mapping are not modelled.
- Java `Long` identifiers are unbounded integers; 64-bit overflow of the id counter is not modelled.
- The order in which the line table returns its lines: the repository promises none. The in-memory table here returns them in creation order, which is ascending identifier order, so the ascending-id clause of `FindAllLines` is a property of this table, not of the real store.
- Null identifiers: every identifier in the model is an integer. A null line id, which makes `findById` throw, and null up or down station ids are not modelled.
