/** The administrator's room list: a search over name, number and type, the
    status counts above the list, a label and colour per status, and the
    amenity chips of each card. */
module AdminRooms {
  import opened Text
  import Seqs
  import Chips

  /** A room as the administrator sees it (the picture is left out). */
  datatype Room = Room(
    id: nat,
    number: string,
    name: string,
    roomType: string,
    price: int,
    capacity: nat,
    amenities: seq<string>,
    status: string,
    lastCleaned: string,
    floor: nat)

  /** The page's four mock rooms. */
  function MockRooms(): seq<Room> {
    [ Room(1, "101", "Standard Room", "Standard", 99, 2, ["Free WiFi", "AC", "TV"], "available", "2024-01-15", 1),
      Room(2, "201", "Deluxe Room", "Deluxe", 150, 2, ["Free WiFi", "AC", "Mini Bar", "City View"], "occupied",
           "2024-01-14", 2),
      Room(3, "301", "Executive Suite", "Suite", 299, 4, ["Free WiFi", "AC", "Mini Bar", "Kitchen", "Living Area"],
           "maintenance", "2024-01-13", 3),
      Room(4, "102", "Standard Room", "Standard", 99, 2, ["Free WiFi", "AC", "TV"], "available", "2024-01-15", 1) ]
  }

  /** The name or the type contains the term ignoring case, or the number
      contains the term exactly as typed. */
  predicate RoomMatches(r: Room, term: string) {
    IncludesIgnoringCase(r.name, term) || Includes(r.number, term) || IncludesIgnoringCase(r.roomType, term)
  }

  function Searched(term: string): Room -> bool {
    r => RoomMatches(r, term)
  }

  /** `filteredRooms`: the rooms the term matches, in their listed order. */
  function FilteredRooms(rooms: seq<Room>, term: string): (r: seq<Room>)
    ensures forall x :: x in r <==> x in rooms && RoomMatches(x, term)
    ensures Seqs.IsSubsequence(r, rooms)
    ensures |r| == |Seqs.Positions(rooms, Searched(term))|
  {
    Seqs.FilterMembership(rooms, Searched(term));
    Seqs.FilterCount(rooms, Searched(term));
    Seqs.FilterIsSubsequence(rooms, Searched(term));
    Seqs.Filter(rooms, Searched(term))
  }

  /** An empty search lists every room. */
  lemma EmptySearchKeepsAll(rooms: seq<Room>)
    ensures FilteredRooms(rooms, "") == rooms
  {
    forall k | 0 <= k < |rooms|
      ensures Searched("")(rooms[k])
    {
      IncludesEmpty(Lower(rooms[k].name));
    }
    Seqs.FilterKeepsAll(rooms, Searched(""));
  }

  /** Searching "suite" finds the executive suite by its type even though
      "Suite" is capitalised, and "30" finds it by its number. */
  lemma SearchExamples()
    ensures RoomMatches(MockRooms()[2], "suite")
    ensures RoomMatches(MockRooms()[2], "30")
  {
    var r := MockRooms()[2];
    assert Lower("suite") == "suite";
    assert Lower(r.roomType) == "suite";
    assert StartsWith(Lower(r.roomType), Lower("suite"));
    assert StartsWith(r.number, "30");
  }

  const Available: string := "available"
  const Occupied: string := "occupied"
  const Maintenance: string := "maintenance"
  const Cleaning: string := "cleaning"

  function HasStatus(status: string): Room -> bool {
    (r: Room) => r.status == status
  }

  /** `rooms.filter(r => r.status === status).length`. */
  function CountWithStatus(rooms: seq<Room>, status: string): (n: nat)
    ensures n == |Seqs.Positions(rooms, HasStatus(status))|
    ensures n <= |rooms|
  {
    Seqs.FilterCount(rooms, HasStatus(status));
    |Seqs.Filter(rooms, HasStatus(status))|
  }

  /** `statusCounts`. */
  datatype StatusCounts = StatusCounts(available: nat, occupied: nat, maintenance: nat, total: nat)

  function StatusCountsOf(rooms: seq<Room>): (c: StatusCounts)
    ensures c.available == |Seqs.Positions(rooms, HasStatus(Available))|
    ensures c.occupied == |Seqs.Positions(rooms, HasStatus(Occupied))|
    ensures c.maintenance == |Seqs.Positions(rooms, HasStatus(Maintenance))|
    ensures c.total == |rooms|
  {
    StatusCounts(CountWithStatus(rooms, Available), CountWithStatus(rooms, Occupied),
                 CountWithStatus(rooms, Maintenance), |rooms|)
  }

  /** One of the three statuses that are counted. */
  predicate Counted(r: Room) {
    r.status == Available || r.status == Occupied || r.status == Maintenance
  }

  function AvailableOrOccupied(r: Room): bool {
    r.status == Available || r.status == Occupied
  }

  function NotCounted(r: Room): bool {
    !Counted(r)
  }

  /** The three counts never exceed the total, and they add up to it exactly
      when every room is available, occupied or under maintenance: a room
      being cleaned, or with any other status, is in no count. */
  lemma CountsAtMostTotal(rooms: seq<Room>)
    ensures var c := StatusCountsOf(rooms);
      c.available + c.occupied + c.maintenance <= c.total
    ensures var c := StatusCountsOf(rooms);
      c.available + c.occupied + c.maintenance == c.total <==> forall k :: 0 <= k < |rooms| ==> Counted(rooms[k])
  {
    Seqs.FilterDisjointUnion(rooms, HasStatus(Available), HasStatus(Occupied), AvailableOrOccupied);
    Seqs.FilterDisjointUnion(rooms, AvailableOrOccupied, HasStatus(Maintenance), Counted);
    Seqs.FilterPartition(rooms, Counted, NotCounted);
    Seqs.FilterMembership(rooms, NotCounted);
    if forall k :: 0 <= k < |rooms| ==> Counted(rooms[k]) {
      Seqs.FilterKeepsAll(rooms, Counted);
    } else {
      var k :| 0 <= k < |rooms| && !Counted(rooms[k]);
      assert rooms[k] in Seqs.Filter(rooms, NotCounted);
    }
  }

  /** The mock rooms: 2 available, 1 occupied, 1 under maintenance, 4 in all. */
  lemma MockCounts()
    ensures StatusCountsOf(MockRooms()) == StatusCounts(2, 1, 1, 4)
  {
    var rs := MockRooms();
    Seqs.FilterOfFour(rs, HasStatus(Available));
    Seqs.FilterOfFour(rs, HasStatus(Occupied));
    Seqs.FilterOfFour(rs, HasStatus(Maintenance));
  }

  /** The statuses with a label and a colour of their own. */
  const KnownStatuses: seq<string> := [Available, Occupied, Maintenance, Cleaning]

  /** `getStatusText`: a known status capitalised, any other one unchanged. */
  function StatusText(status: string): (text: string)
    ensures status == Available ==> text == "Available"
    ensures status == Occupied ==> text == "Occupied"
    ensures status == Maintenance ==> text == "Maintenance"
    ensures status == Cleaning ==> text == "Cleaning"
    ensures status in KnownStatuses ==> |text| > 0 && IsUpper(text[0]) && Lower(text) == status
    ensures status !in KnownStatuses ==> text == status
  {
    match status
    case "available" =>
      assert Lower("Available") == "available";
      "Available"
    case "occupied" =>
      assert Lower("Occupied") == "occupied";
      "Occupied"
    case "maintenance" =>
      assert Lower("Maintenance") == "maintenance";
      "Maintenance"
    case "cleaning" =>
      assert Lower("Cleaning") == "cleaning";
      "Cleaning"
    case _ => status
  }

  /** The neutral colour of an unknown status. */
  const NeutralColor: string := "bg-secondary"

  /** `getStatusColor`: a distinct colour for each known status. */
  function StatusColor(status: string): (color: string)
    ensures status == Available ==> color == "bg-hotel-success text-white"
    ensures status == Occupied ==> color == "bg-hotel-warning text-white"
    ensures status == Maintenance ==> color == "bg-destructive text-white"
    ensures status == Cleaning ==> color == "bg-hotel-blue text-white"
    ensures color == NeutralColor <==> status !in KnownStatuses
  {
    match status
    case "available" => "bg-hotel-success text-white"
    case "occupied" => "bg-hotel-warning text-white"
    case "maintenance" => "bg-destructive text-white"
    case "cleaning" => "bg-hotel-blue text-white"
    case _ => NeutralColor
  }

  /** No two known statuses share a colour. */
  lemma ColorsDistinct(s: string, t: string)
    requires s in KnownStatuses && t in KnownStatuses
    requires StatusColor(s) == StatusColor(t)
    ensures s == t
  {
  }

  /** The label and the colour agree on which statuses are known: a status
      written in small letters gets its own colour exactly when its label
      differs from it. */
  lemma ColorAndTextAgree(status: string)
    requires |status| > 0 && !IsUpper(status[0])
    ensures StatusColor(status) != NeutralColor <==> StatusText(status) != status
  {
  }

  /** "cleaning" has a label and a colour but is in none of the counts. */
  lemma CleaningIsLabelledButNotCounted(r: Room)
    requires r.status == Cleaning
    ensures StatusText(r.status) == "Cleaning" && StatusColor(r.status) != NeutralColor
    ensures !Counted(r)
  {
  }

  /** The overflow chip of a card: `+k` for k amenities not shown. */
  function MoreText(hidden: nat): string {
    "+" + DecimalString(hidden)
  }

  /** The overflow chip names how many amenities it stands for. */
  lemma MoreTextReadsBack(hidden: nat)
    ensures |MoreText(hidden)| >= 2 && MoreText(hidden)[0] == '+'
    ensures DecimalValue(MoreText(hidden)[1..]) == hidden
  {
    assert MoreText(hidden)[1..] == DecimalString(hidden);
    DecimalRoundTrip(hidden);
  }

  /** The executive suite's five amenities show as three chips and "+2". */
  lemma SuiteChips()
    ensures Chips.AmenityChips(MockRooms()[2].amenities, MoreText)
         == [Chips.AmenityChip("Free WiFi"), Chips.AmenityChip("AC"), Chips.AmenityChip("Mini Bar"),
             Chips.MoreChip("+2")]
  {
    var a := MockRooms()[2].amenities;
    assert DecimalString(2) == "2";
    assert MoreText(2) == "+2";
    assert a[..3] == ["Free WiFi", "AC", "Mini Bar"];
  }

  /** What a delete or edit click produces: a notice, and the room list. */
  datatype Outcome = Outcome(rooms: seq<Room>, notice: string)

  /** `handleDeleteRoom`: the notice says the room was removed, but the list
      is left exactly as it was, so the room is still listed and counted. */
  function DeleteRoom(rooms: seq<Room>, roomId: nat): (o: Outcome)
    ensures o.rooms == rooms && o.notice == "Room Deleted"
    ensures forall r :: r in rooms && r.id == roomId ==> r in o.rooms
    ensures StatusCountsOf(o.rooms) == StatusCountsOf(rooms)
  {
    Outcome(rooms, "Room Deleted")
  }

  /** `handleEditRoom`: a notice only. */
  function EditRoom(rooms: seq<Room>, roomId: nat): (o: Outcome)
    ensures o.rooms == rooms && o.notice == "Edit Room"
  {
    Outcome(rooms, "Edit Room")
  }
}
