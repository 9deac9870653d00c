/** The development mail stub of the Node backend: it appends every notification
    to an in-memory log instead of sending it. The clock and the random id are
    parameters; `toLocaleDateString` is the service's `localeDate` function. */
module MockEmail {
  import Strings
  import Mail

  const ListingAdded: string := "listing_added"
  const ListingEdited: string := "listing_edited"
  const ListingDeleted: string := "listing_deleted"
  const ListingExpired: string := "listing_expired"

  const DashboardUrl: string := "http://localhost:3000/my-listings"
  const ListingsUrlPrefix: string := "http://localhost:3000/listings/"

  /** One logged notification. */
  datatype Notification = Notification(kind: string, data: map<string, string>, timestamp: int, id: string)

  /** The listing fields the payload builders read. */
  datatype ListingData = ListingData(
    id: string, title: string, address: string, city: string, state: string, zip: string,
    pricePerNight: string, startDate: int, endDate: int)

  /** `data.listing_title` inside a template literal: "undefined" when absent. */
  function TitleOf(data: map<string, string>): string {
    if "listing_title" in data then data["listing_title"] else "undefined"
  }

  /** `getSubject`: the four listing kinds have fixed subject templates, every
      other kind the generic subject. */
  function GetSubject(kind: string, data: map<string, string>): (s: string)
    ensures kind == ListingAdded ==> s == Mail.ListingAddedSubject(TitleOf(data))
    ensures kind == ListingEdited ==> s == Mail.ListingEditedSubject(TitleOf(data))
    ensures kind == ListingDeleted ==> s == Mail.ListingDeletedSubject(TitleOf(data))
    ensures kind == ListingExpired ==> s == Mail.ListingExpiredSubject(TitleOf(data))
    ensures kind !in {ListingAdded, ListingEdited, ListingDeleted, ListingExpired} ==> s == "Subly Notification"
  {
    if kind == ListingAdded then "Your listing '" + TitleOf(data) + "' has been added to Subly"
    else if kind == ListingEdited then "Your listing '" + TitleOf(data) + "' has been updated on Subly"
    else if kind == ListingDeleted then "Your listing '" + TitleOf(data) + "' has been removed from Subly"
    else if kind == ListingExpired then "Your listing '" + TitleOf(data) + "' has expired on Subly"
    else "Subly Notification"
  }

  /** The generic subject is never one of the listing subjects, so the subject
      alone tells a listing notification from any other. */
  lemma GenericSubjectIsDistinct(kind: string, data: map<string, string>)
    ensures kind in {ListingAdded, ListingEdited, ListingDeleted, ListingExpired} <==> GetSubject(kind, data) != "Subly Notification"
  {
    assert |GetSubject(kind, data)| > |"Subly Notification"| || GetSubject(kind, data) == "Subly Notification";
  }

  /** `${address}, ${city}, ${state} ${zip}`. */
  function ListingAddress(l: ListingData): (a: string)
    ensures Strings.StartsWith(a, l.address + ", " + l.city + ", ")
    ensures Strings.EndsWith(a, l.state + " " + l.zip)
  {
    l.address + ", " + l.city + ", " + l.state + " " + l.zip
  }

  /** The public page of a listing. */
  function ListingUrl(l: ListingData): (u: string)
    ensures Strings.StartsWith(u, ListingsUrlPrefix) && Strings.EndsWith(u, l.id)
    ensures |u| == |ListingsUrlPrefix| + |l.id|
  {
    ListingsUrlPrefix + l.id
  }

  /** The distinct listing URLs of distinct listing ids. */
  lemma ListingUrlInjective(a: ListingData, b: ListingData)
    requires ListingUrl(a) == ListingUrl(b)
    ensures a.id == b.id
  {
    assert a.id == ListingUrl(a)[|ListingsUrlPrefix|..];
    assert b.id == ListingUrl(b)[|ListingsUrlPrefix|..];
  }

  class MockEmailService {
    var notifications: seq<Notification>
    const localeDate: int -> string

    /** A new service has an empty log. */
    constructor (localeDate: int -> string)
      ensures notifications == [] && this.localeDate == localeDate
    {
      notifications := [];
      this.localeDate := localeDate;
    }

    /** The payload of the added and edited notifications. */
    function ListingPayload(recipientEmail: string, hostName: string, l: ListingData): (d: map<string, string>)
      ensures d.Keys == {"recipient_email", "host_name", "listing_title", "listing_address", "listing_price",
                         "start_date", "end_date", "listing_url"}
      ensures TitleOf(d) == l.title && d["listing_url"] == ListingUrl(l)
    {
      map["recipient_email" := recipientEmail, "host_name" := hostName, "listing_title" := l.title,
          "listing_address" := ListingAddress(l), "listing_price" := l.pricePerNight,
          "start_date" := localeDate(l.startDate), "end_date" := localeDate(l.endDate),
          "listing_url" := ListingUrl(l)]
    }

    /** The payload of the deleted notification: today's date and the dashboard link. */
    function DeletedPayload(recipientEmail: string, hostName: string, l: ListingData, now: int): (d: map<string, string>)
      ensures d.Keys == {"recipient_email", "host_name", "listing_title", "listing_address", "listing_price",
                         "removal_date", "dashboard_url"}
      ensures TitleOf(d) == l.title && d["dashboard_url"] == DashboardUrl && d["removal_date"] == localeDate(now)
    {
      map["recipient_email" := recipientEmail, "host_name" := hostName, "listing_title" := l.title,
          "listing_address" := ListingAddress(l), "listing_price" := l.pricePerNight,
          "removal_date" := localeDate(now), "dashboard_url" := DashboardUrl]
    }

    /** The payload of the expired notification: the end date, today as the
        expiration date, and the dashboard link. */
    function ExpiredPayload(recipientEmail: string, hostName: string, l: ListingData, now: int): (d: map<string, string>)
      ensures d.Keys == {"recipient_email", "host_name", "listing_title", "listing_address", "listing_price",
                         "end_date", "expiration_date", "dashboard_url"}
      ensures TitleOf(d) == l.title && d["dashboard_url"] == DashboardUrl && d["expiration_date"] == localeDate(now)
    {
      map["recipient_email" := recipientEmail, "host_name" := hostName, "listing_title" := l.title,
          "listing_address" := ListingAddress(l), "listing_price" := l.pricePerNight,
          "end_date" := localeDate(l.endDate), "expiration_date" := localeDate(now),
          "dashboard_url" := DashboardUrl]
    }

    /** `sendNotification`: logs exactly one entry and reports success. */
    method SendNotification(kind: string, data: map<string, string>, now: int, randomId: string) returns (ok: bool)
      modifies this
      ensures notifications == old(notifications) + [Notification(kind, data, now, randomId)]
      ensures ok
    {
      notifications := notifications + [Notification(kind, data, now, randomId)];
      ok := true;
    }

    method SendListingAddedNotification(recipientEmail: string, hostName: string, l: ListingData,
                                        now: int, randomId: string) returns (ok: bool)
      modifies this
      ensures notifications == old(notifications) + [Notification(ListingAdded, ListingPayload(recipientEmail, hostName, l), now, randomId)]
      ensures ok
    {
      ok := SendNotification(ListingAdded, ListingPayload(recipientEmail, hostName, l), now, randomId);
    }

    method SendListingEditedNotification(recipientEmail: string, hostName: string, l: ListingData,
                                         now: int, randomId: string) returns (ok: bool)
      modifies this
      ensures notifications == old(notifications) + [Notification(ListingEdited, ListingPayload(recipientEmail, hostName, l), now, randomId)]
      ensures ok
    {
      ok := SendNotification(ListingEdited, ListingPayload(recipientEmail, hostName, l), now, randomId);
    }

    method SendListingDeletedNotification(recipientEmail: string, hostName: string, l: ListingData,
                                          now: int, randomId: string) returns (ok: bool)
      modifies this
      ensures notifications == old(notifications) + [Notification(ListingDeleted, DeletedPayload(recipientEmail, hostName, l, now), now, randomId)]
      ensures ok
    {
      ok := SendNotification(ListingDeleted, DeletedPayload(recipientEmail, hostName, l, now), now, randomId);
    }

    method SendListingExpiredNotification(recipientEmail: string, hostName: string, l: ListingData,
                                          now: int, randomId: string) returns (ok: bool)
      modifies this
      ensures notifications == old(notifications) + [Notification(ListingExpired, ExpiredPayload(recipientEmail, hostName, l, now), now, randomId)]
      ensures ok
    {
      ok := SendNotification(ListingExpired, ExpiredPayload(recipientEmail, hostName, l, now), now, randomId);
    }

    /** `getNotifications`: the log, unchanged. */
    method GetNotifications() returns (log: seq<Notification>)
      ensures log == notifications
    {
      log := notifications;
    }

    /** `clearNotifications`: the log becomes empty. */
    method ClearNotifications()
      modifies this
      ensures notifications == []
    {
      notifications := [];
    }
  }

  /** The subject the stub logs for a listing notification is the subject the
      Python mailer sends for the same listing. */
  lemma StubSubjectsMatchMailer(s: MockEmailService, email: string, host: string, l: ListingData, now: int)
    ensures GetSubject(ListingAdded, s.ListingPayload(email, host, l)) == Mail.ListingAddedSubject(l.title)
    ensures GetSubject(ListingEdited, s.ListingPayload(email, host, l)) == Mail.ListingEditedSubject(l.title)
    ensures GetSubject(ListingDeleted, s.DeletedPayload(email, host, l, now)) == Mail.ListingDeletedSubject(l.title)
    ensures GetSubject(ListingExpired, s.ExpiredPayload(email, host, l, now)) == Mail.ListingExpiredSubject(l.title)
  {
  }
}
