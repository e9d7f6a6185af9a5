/** The `setlocation` command: a user's default city is recorded in the
    bot's `user_locations` table only when the weather service knows it. */
module Locations {
  import opened Optional
  import Report

  /** A chat user's numeric identity. */
  type UserId = int

  /** The table from user to default city. */
  type LocationTable = map<UserId, string>

  /** The command's answer to the user. */
  datatype Reply = LocationSet(city: string) | InvalidLocation

  /** The outcome of one `setlocation` call. */
  datatype Registration = Registration(table: LocationTable, reply: Reply)

  /** Record `city` for `author` when the weather lookup for it succeeded;
      otherwise leave the table alone and reject the location. */
  function SetLocation(table: LocationTable, author: UserId, city: string,
                       lookup: Option<Report.Observation>): (r: Registration)
    ensures lookup.Some? ==> author in r.table && r.table[author] == city
    ensures lookup.Some? <==> r.reply == LocationSet(city)
    ensures r.reply == InvalidLocation <==> lookup.None?
    ensures lookup.None? ==> r.table == table
    ensures r.table.Keys == table.Keys + (if lookup.Some? then {author} else {})
    ensures forall u :: u in table && u != author ==> u in r.table && r.table[u] == table[u]
  {
    match lookup
    case Some(_) => Registration(table[author := city], LocationSet(city))
    case None => Registration(table, InvalidLocation)
  }

  /** The text of each reply. */
  function ReplyText(reply: Reply): string {
    match reply
    case LocationSet(city) => "Location set to " + city + ". You'll receive daily weather updates!"
    case InvalidLocation => "Invalid location. Please try again."
  }

  /** The confirmation names the city it recorded, so different cities
      get different confirmations, and no confirmation reads like the
      rejection. */
  lemma ReplyTextsDistinct(city: string, other: string)
    ensures ReplyText(LocationSet(city)) != ReplyText(InvalidLocation)
    ensures ReplyText(LocationSet(city)) == ReplyText(LocationSet(other)) ==> city == other
  {
    var prefix := "Location set to ";
    var suffix := ". You'll receive daily weather updates!";
    assert ReplyText(LocationSet(city))[0] == 'L';
    assert ReplyText(InvalidLocation)[0] == 'I';
    var t := ReplyText(LocationSet(city));
    assert city == t[|prefix|..|t| - |suffix|];
    var u := ReplyText(LocationSet(other));
    assert other == u[|prefix|..|u| - |suffix|];
  }

  /** Setting the same city twice is the same as setting it once. */
  lemma SetLocationIdempotent(table: LocationTable, author: UserId, city: string,
                              lookup: Option<Report.Observation>)
    ensures SetLocation(SetLocation(table, author, city, lookup).table, author, city, lookup)
      == SetLocation(table, author, city, lookup)
  {
  }

  /** The later of two successful registrations by one user wins. */
  lemma LastRegistrationWins(table: LocationTable, author: UserId, first: string, second: string,
                             o1: Report.Observation, o2: Report.Observation)
    ensures SetLocation(SetLocation(table, author, first, Some(o1)).table, author, second, Some(o2)).table
      == SetLocation(table, author, second, Some(o2)).table
  {
  }

  /** A rejected location does not erase the city recorded earlier. */
  lemma FailedLookupKeepsEarlierCity(table: LocationTable, author: UserId, city: string, other: string,
                                     o: Report.Observation)
    ensures var t := SetLocation(SetLocation(table, author, city, Some(o)).table, author, other, None).table;
      author in t && t[author] == city
  {
  }

  /** Registrations by different users do not interfere: applying them in
      either order gives the same table. */
  lemma DistinctUsersCommute(table: LocationTable, a: UserId, b: UserId, ca: string, cb: string,
                             la: Option<Report.Observation>, lb: Option<Report.Observation>)
    requires a != b
    ensures SetLocation(SetLocation(table, a, ca, la).table, b, cb, lb).table
      == SetLocation(SetLocation(table, b, cb, lb).table, a, ca, la).table
  {
  }
}
