/**
 * Table bookings, Controllers/ReservationController.cs: creating a booking
 * (stamped with the signed-in user, a staff member creating one becomes a
 * manager of the restaurant), changing its status with the log line and the
 * customer email that follow, and the user-log helper.
 */
module ReservationController {
  import opened Wrappers
  import opened Calendar
  import opened Text
  import opened Tables
  import opened Entities

  /** `SaveUserLog(userId, action, description)`: the description defaults to "<action> thành công". */
  function LogEntry(userId: Option<string>, action: string, description: Option<string>, now: DateTime): (l: UserLog)
    ensures l.userId == userId && l.action == action && l.timestamp == now
    ensures description.Some? ==> l.description == description.value
    ensures description.None? ==> l.description == action + " thành công"
  {
    UserLog(userId, action, description.GetOr(action + " thành công"), now)
  }

  /** The restaurant's name in log lines: its name, or "ID <id>" when the restaurant is gone. */
  function RestaurantName(restaurants: seq<Restaurant>, id: int): (name: string)
    ensures FindRestaurant(restaurants, id).Some? ==> name == restaurants[FindRestaurant(restaurants, id).value].name
    ensures FindRestaurant(restaurants, id).None? ==> name == "ID " + IntToString(id)
  {
    match FindRestaurant(restaurants, id)
    case Some(k) => restaurants[k].name
    case None => "ID " + IntToString(id)
  }

  function ReservationId(r: Reservation): int { r.id }

  /** No staff link is stored twice. */
  ghost predicate DistinctLinks(links: seq<StaffRestaurant>) {
    forall i, j :: 0 <= i < j < |links| ==> links[i] != links[j]
  }

  /** The links after a staff booking: the (staff, restaurant) link is added only when absent. */
  function LinkedStaff(links: seq<StaffRestaurant>, userId: string, restaurantId: int): (r: seq<StaffRestaurant>)
    ensures StaffRestaurant(userId, restaurantId) in r
    ensures forall l :: l in links ==> l in r
    ensures DistinctLinks(links) ==> DistinctLinks(r)
    ensures forall id :: id in RestaurantsOf(r, userId) <==> id in RestaurantsOf(links, userId) || id == restaurantId
  {
    var link := StaffRestaurant(userId, restaurantId);
    if link in links then links else links + [link]
  }

  /** The log line of a booking; the date is the input rendering `HH:mm dd/MM/yyyy` of the booking time. */
  function BookingLogText(restaurantName: string, dateText: string, guests: int): string {
    "Đặt bàn tại nhà hàng " + restaurantName + " lúc " + dateText + " cho " + IntToString(guests) + " khách."
  }

  datatype CreateResult = InvalidModel | Booked(restaurantName: Option<string>)

  /**
   * `Create(reservation)` (POST): an invalid form changes nothing; otherwise
   * the posted booking is stored under a new id and the signed-in user's id,
   * a staff member gets a link to the restaurant unless they have one, and a
   * log line is written.
   */
  method Create(db: AppDbContext, userId: string, isStaff: bool, reservation: Reservation, modelValid: bool,
                dateText: string, now: DateTime) returns (r: CreateResult)
    modifies db`reservations, db`staffRestaurants, db`userLogs
    ensures !modelValid ==>
      && r == InvalidModel && db.reservations == old(db.reservations)
      && db.staffRestaurants == old(db.staffRestaurants) && db.userLogs == old(db.userLogs)
    ensures modelValid ==>
      var stored := reservation.(id := NextId(old(db.reservations), ReservationId), userId := Some(userId));
      && db.reservations == old(db.reservations) + [stored]
      && db.staffRestaurants == (if isStaff then LinkedStaff(old(db.staffRestaurants), userId, reservation.restaurantId)
                                 else old(db.staffRestaurants))
      && db.userLogs == old(db.userLogs) + [LogEntry(Some(userId), "CreateReservation",
           Some(BookingLogText(RestaurantName(db.restaurants, reservation.restaurantId), dateText, reservation.numberOfGuests)), now)]
      && r == Booked(if FindRestaurant(db.restaurants, reservation.restaurantId).Some?
                     then Some(db.restaurants[FindRestaurant(db.restaurants, reservation.restaurantId).value].name) else None)
  {
    if !modelValid {
      return InvalidModel;
    }
    var stored := reservation.(id := NextId(db.reservations, ReservationId), userId := Some(userId));
    db.reservations := db.reservations + [stored];
    if isStaff {
      var link := StaffRestaurant(userId, reservation.restaurantId);
      if link !in db.staffRestaurants {
        db.staffRestaurants := db.staffRestaurants + [link];
      }
    }
    var found := FindRestaurant(db.restaurants, reservation.restaurantId);
    var name := RestaurantName(db.restaurants, reservation.restaurantId);
    db.userLogs := db.userLogs + [LogEntry(Some(userId), "CreateReservation",
                                           Some(BookingLogText(name, dateText, reservation.numberOfGuests)), now)];
    r := Booked(if found.Some? then Some(db.restaurants[found.value].name) else None);
  }

  /**
   * The new booking is the only row with its id, belongs to the signed-in
   * user, and keeps the status it was posted with; a booking by a staff
   * member makes the restaurant one of theirs without duplicating links.
   */
  lemma BookingFacts(reservations: seq<Reservation>, links: seq<StaffRestaurant>, reservation: Reservation, userId: string)
    requires DistinctLinks(links)
    ensures var stored := reservation.(id := NextId(reservations, ReservationId), userId := Some(userId));
      && FindReservation(reservations + [stored], stored.id) == Some(|reservations|)
      && stored.status == reservation.status
      && reservation.restaurantId in RestaurantsOf(LinkedStaff(links, userId, reservation.restaurantId), userId)
      && DistinctLinks(LinkedStaff(links, userId, reservation.restaurantId))
  {
    var stored := reservation.(id := NextId(reservations, ReservationId), userId := Some(userId));
    var all := reservations + [stored];
    assert forall j :: 0 <= j < |reservations| ==> all[j].id != stored.id;
    assert all[|reservations|].id == stored.id;
  }

  // ---------------------------------------------------------------------------
  // UpdateStatus
  // ---------------------------------------------------------------------------

  /** The status wording of the log line and the page message. */
  function StatusText(status: string): (t: string)
  {
    if status == "Confirmed" then "Được chấp nhận ✔️"
    else if status == "Cancelled" then "Bị từ chối ❌"
    else "Được cập nhật thành " + status
  }

  /** The mail to a customer who has an address; only "Confirmed" gets the acceptance wording and colour. */
  datatype Email = Email(to: string, subject: string, title: string, statusText: string, color: string)

  function StatusEmail(to: string, status: string): (e: Email)
    ensures e.to == to && e.statusText == StatusText(status)
    ensures status == "Confirmed" ==> e.color == "#2E7D32" && e.subject == "Đặt bàn của bạn đã được xác nhận!"
    ensures status != "Confirmed" ==> e.color == "#C62828" && e.subject == "Đặt bàn của bạn đã bị từ chối"
  {
    if status == "Confirmed" then
      Email(to, "Đặt bàn của bạn đã được xác nhận!", "Đặt bàn đã được xác nhận!", StatusText(status), "#2E7D32")
    else
      Email(to, "Đặt bàn của bạn đã bị từ chối", "Đặt bàn đã bị từ chối", StatusText(status), "#C62828")
  }

  /**
   * Every status other than "Confirmed" mails the refusal: a booking moved
   * back to "Pending" is announced to its customer as refused, while its
   * log line says it was updated to "Pending".
   */
  lemma PendingMailsRefusal(to: string)
    ensures StatusEmail(to, "Pending").subject == "Đặt bàn của bạn đã bị từ chối"
    ensures StatusText("Pending") == "Được cập nhật thành Pending"
  {
  }

  datatype UpdateStatusResult = StatusNotFound | StatusUpdated(statusText: string, email: Option<Email>)

  /** The customer's address, when the booking has a customer whose account has one. */
  function CustomerEmail(users: seq<User>, userId: Option<string>): Option<string> {
    if userId.None? then None
    else
      match FindUserById(users, userId.value)
      case None => None
      case Some(i) => users[i].email
  }

  /**
   * `UpdateStatus(id, status)`: a missing booking is NotFound; otherwise
   * the status is set to the requested text, whatever it is, a log line
   * records it for the booking's customer, and the customer is mailed when
   * they have an address.
   */
  method UpdateStatus(db: AppDbContext, id: int, status: string, now: DateTime) returns (r: UpdateStatusResult)
    modifies db`reservations, db`userLogs
    ensures r.StatusNotFound? <==> FindReservation(old(db.reservations), id).None?
    ensures r.StatusNotFound? ==> db.reservations == old(db.reservations) && db.userLogs == old(db.userLogs)
    ensures r.StatusUpdated? ==>
      var k := FindReservation(old(db.reservations), id).value;
      var row := old(db.reservations)[k];
      && db.reservations == old(db.reservations)[k := row.(status := status)]
      && r.statusText == StatusText(status)
      && db.userLogs == old(db.userLogs) + [LogEntry(row.userId, "UpdateReservationStatus",
           Some("Đơn đặt bàn tại " + RestaurantName(db.restaurants, row.restaurantId) + " đã " + StatusText(status) + "."), now)]
      && (r.email.Some? <==> CustomerEmail(db.users, row.userId).Some?)
      && (r.email.Some? ==> r.email.value == StatusEmail(CustomerEmail(db.users, row.userId).value, status))
  {
    var found := FindReservation(db.reservations, id);
    if found.None? {
      return StatusNotFound;
    }
    var k := found.value;
    var row := db.reservations[k];
    db.reservations := db.reservations[k := row.(status := status)];
    var name := RestaurantName(db.restaurants, row.restaurantId);
    var text := StatusText(status);
    db.userLogs := db.userLogs + [LogEntry(row.userId, "UpdateReservationStatus",
                                           Some("Đơn đặt bàn tại " + name + " đã " + text + "."), now)];
    var to := CustomerEmail(db.users, row.userId);
    var email := if to.Some? then Some(StatusEmail(to.value, status)) else None;
    r := StatusUpdated(text, email);
  }

  /** A status update changes only the status of the one booking with that id. */
  lemma {:induction false} StatusUpdateOnlyChangesStatus(reservations: seq<Reservation>, k: nat, status: string, id: int)
    requires k < |reservations|
    ensures var after := reservations[k := reservations[k].(status := status)];
      && |after| == |reservations|
      && FindReservation(after, id) == FindReservation(reservations, id)
      && after[k].(status := reservations[k].status) == reservations[k]
  {
    var after := reservations[k := reservations[k].(status := status)];
    assert forall j :: 0 <= j < |reservations| ==> after[j].id == reservations[j].id;
  }
}
