/** The Python mail composer: provider selection, template rendering with its
    failure mapping, and the five notification kinds with their subjects and the
    empty-HTML guard. The SMTP and SendGrid transports and the Jinja2 renderer are
    foreign; they are parameters (`Network`, `Renderer`). */
module Mail {
  import opened Wrappers
  import Strings

  /** The environment settings the service reads at construction. */
  datatype Config = Config(
    fromAddress: string,
    fromName: string,
    provider: string,
    sendgridApiKey: Option<string>)

  /** Whether a SendGrid API key is set and non-empty (Python truthiness). */
  predicate SendGridKeySet(config: Config) {
    config.sendgridApiKey.Some? && config.sendgridApiKey.value != ""
  }

  datatype Transport = Smtp | SendGrid

  /** Whether each transport accepts a message in the current call; a transport that
      does not raises inside the service, which maps the exception to `False`. */
  datatype Network = Network(smtpUp: bool, sendgridUp: bool)

  /** An e-mail a transport accepted. */
  datatype SentEmail = SentEmail(transport: Transport, from: string, to: string, subject: string, html: string)

  /** The Boolean a `send_*` method returns, with the accepted e-mail when it is `True`. */
  datatype Delivery = Sent(email: SentEmail) | NotSent

  /** A template renderer: `None` when loading or rendering the template raises. */
  type Renderer = (string, map<string, string>) -> Option<string>

  const AppName: string := "Subly"

  const MessageTemplate: string := "message_notification.html"
  const ListingAddedTemplate: string := "listing_added.html"
  const ListingEditedTemplate: string := "listing_edited.html"
  const ListingDeletedTemplate: string := "listing_deleted.html"
  const ListingExpiredTemplate: string := "listing_expired.html"

  /** The keyword parameters of `send_message_notification`. */
  const MessageNotificationParameters: set<string> :=
    {"recipient_email", "sender_name", "message_preview", "conversation_url"}

  function MessageSubject(senderName: string): (s: string)
    ensures Strings.StartsWith(s, "New message from ")
    ensures Strings.EndsWith(s, " on Subly")
    ensures |s| == |senderName| + 26
  {
    "New message from " + senderName + " on Subly"
  }

  function ListingAddedSubject(title: string): string {
    "Your listing '" + title + "' has been added to Subly"
  }

  function ListingEditedSubject(title: string): string {
    "Your listing '" + title + "' has been updated on Subly"
  }

  function ListingDeletedSubject(title: string): string {
    "Your listing '" + title + "' has been removed from Subly"
  }

  function ListingExpiredSubject(title: string): string {
    "Your listing '" + title + "' has expired on Subly"
  }

  /** The sender name can be read back from a message subject. */
  lemma MessageSubjectInjective(a: string, b: string)
    requires MessageSubject(a) == MessageSubject(b)
    ensures a == b
  {
    assert a == MessageSubject(a)[17..|MessageSubject(a)| - 9];
    assert b == MessageSubject(b)[17..|MessageSubject(b)| - 9];
  }

  /** The four listing subjects tell the notification kind and the listing title
      apart: equal subjects of the same kind have equal titles, and two different
      kinds never share a subject. */
  lemma ListingSubjectsDistinct(a: string, b: string)
    ensures ListingAddedSubject(a) == ListingAddedSubject(b) ==> a == b
    ensures ListingExpiredSubject(a) == ListingExpiredSubject(b) ==> a == b
    ensures ListingAddedSubject(a) != ListingEditedSubject(b)
    ensures ListingAddedSubject(a) != ListingDeletedSubject(b)
    ensures ListingAddedSubject(a) != ListingExpiredSubject(b)
    ensures ListingEditedSubject(a) != ListingDeletedSubject(b)
    ensures ListingEditedSubject(a) != ListingExpiredSubject(b)
    ensures ListingDeletedSubject(a) != ListingExpiredSubject(b)
  {
    var added, edited, deleted, expired :=
      ListingAddedSubject(a), ListingEditedSubject(b), ListingDeletedSubject(b), ListingExpiredSubject(b);
    assert added[|added| - 7] == 'o';
    assert edited[|edited| - 7] == 'n' && edited[|edited| - 12] == 't';
    assert deleted[|deleted| - 7] == 'm';
    assert expired[|expired| - 7] == 'n' && expired[|expired| - 12] == 'r';
    if ListingAddedSubject(a) == ListingAddedSubject(b) {
      assert a == ListingAddedSubject(a)[14..|ListingAddedSubject(a)| - 25];
      assert b == ListingAddedSubject(b)[14..|ListingAddedSubject(b)| - 25];
    }
    if ListingExpiredSubject(a) == ListingExpiredSubject(b) {
      assert a == ListingExpiredSubject(a)[14..|ListingExpiredSubject(a)| - 22];
      assert b == ListingExpiredSubject(b)[14..|ListingExpiredSubject(b)| - 22];
    }
  }

  function MessageContext(senderName: string, messagePreview: string, conversationUrl: string): map<string, string> {
    map["sender_name" := senderName, "message_preview" := messagePreview,
        "conversation_url" := conversationUrl, "app_name" := AppName]
  }

  /** The context of the added and edited listing templates. */
  function ListingContext(hostName: string, listingTitle: string, listingAddress: string, listingPrice: string,
                          startDate: string, endDate: string, listingUrl: string): map<string, string> {
    map["host_name" := hostName, "listing_title" := listingTitle, "listing_address" := listingAddress,
        "listing_price" := listingPrice, "start_date" := startDate, "end_date" := endDate,
        "listing_url" := listingUrl, "app_name" := AppName]
  }

  function ListingDeletedContext(hostName: string, listingTitle: string, listingAddress: string, listingPrice: string,
                                 removalDate: string, dashboardUrl: string): map<string, string> {
    map["host_name" := hostName, "listing_title" := listingTitle, "listing_address" := listingAddress,
        "listing_price" := listingPrice, "removal_date" := removalDate, "dashboard_url" := dashboardUrl,
        "app_name" := AppName]
  }

  function ListingExpiredContext(hostName: string, listingTitle: string, listingAddress: string, listingPrice: string,
                                 endDate: string, expirationDate: string, dashboardUrl: string): map<string, string> {
    map["host_name" := hostName, "listing_title" := listingTitle, "listing_address" := listingAddress,
        "listing_price" := listingPrice, "end_date" := endDate, "expiration_date" := expirationDate,
        "dashboard_url" := dashboardUrl, "app_name" := AppName]
  }

  class EmailService {
    const fromEmail: string
    const fromName: string
    const provider: string
    /** Whether the SendGrid client was created. */
    const hasSendgridClient: bool
    const renderer: Renderer

    /** The SendGrid client is created only for provider "sendgrid" with a key set. */
    constructor (config: Config, renderer: Renderer)
      ensures fromEmail == config.fromAddress && fromName == config.fromName && provider == config.provider
      ensures hasSendgridClient <==> config.provider == "sendgrid" && SendGridKeySet(config)
      ensures this.renderer == renderer
    {
      fromEmail := config.fromAddress;
      fromName := config.fromName;
      provider := config.provider;
      this.renderer := renderer;
      hasSendgridClient := config.provider == "sendgrid" && SendGridKeySet(config);
    }

    /** The SMTP transport: the From header carries the display name. */
    function SendSmtpEmail(to: string, subject: string, html: string, net: Network): (d: Delivery)
      ensures d.Sent? <==> net.smtpUp
      ensures d.Sent? ==> d.email.transport == Smtp
      ensures d.Sent? ==> Strings.StartsWith(d.email.from, fromName) && Strings.EndsWith(d.email.from, fromEmail + ">")
    {
      if net.smtpUp then Sent(SentEmail(Smtp, fromName + " <" + fromEmail + ">", to, subject, html)) else NotSent
    }

    /** The SendGrid transport: the sender is the bare address. */
    function SendSendgridEmail(to: string, subject: string, html: string, net: Network): (d: Delivery)
      ensures d.Sent? <==> net.sendgridUp
      ensures d.Sent? ==> d.email.transport == SendGrid && d.email.from == fromEmail
    {
      if net.sendgridUp then Sent(SentEmail(SendGrid, fromEmail, to, subject, html)) else NotSent
    }

    /** SendGrid is used only when it is the provider and its client exists;
        otherwise SMTP. A transport failure is `NotSent`, never an exception. */
    function SendEmail(to: string, subject: string, html: string, net: Network): (d: Delivery)
      ensures d.Sent? ==> d.email.to == to && d.email.subject == subject && d.email.html == html
      ensures d.Sent? ==> (d.email.transport == SendGrid <==> provider == "sendgrid" && hasSendgridClient)
      ensures d.Sent? <==> if provider == "sendgrid" && hasSendgridClient then net.sendgridUp else net.smtpUp
    {
      if provider == "sendgrid" && hasSendgridClient then SendSendgridEmail(to, subject, html, net)
      else SendSmtpEmail(to, subject, html, net)
    }

    /** A rendering failure becomes the empty string. */
    function RenderTemplate(templateName: string, context: map<string, string>): (html: string)
      ensures renderer(templateName, context).None? ==> html == ""
      ensures html != "" ==> renderer(templateName, context) == Some(html)
    {
      match renderer(templateName, context)
      case Some(h) => h
      case None => ""
    }

    /** The guard every notification shares: render, and send only non-empty HTML. */
    function Notify(to: string, subject: string, templateName: string, context: map<string, string>, net: Network): (d: Delivery)
      ensures RenderTemplate(templateName, context) == "" ==> d == NotSent
      ensures d.Sent? ==> d.email.to == to && d.email.subject == subject
      ensures d.Sent? ==> d.email.html == RenderTemplate(templateName, context) && d.email.html != ""
      ensures RenderTemplate(templateName, context) != "" ==> d == SendEmail(to, subject, RenderTemplate(templateName, context), net)
    {
      var html := RenderTemplate(templateName, context);
      if html != "" then SendEmail(to, subject, html, net) else NotSent
    }

    /** A new-message notification. */
    function SendMessageNotification(recipientEmail: string, senderName: string, messagePreview: string,
                                     conversationUrl: string, net: Network): (d: Delivery)
      ensures d.Sent? ==> d.email.to == recipientEmail && d.email.subject == MessageSubject(senderName)
      ensures d.Sent? ==> renderer(MessageTemplate, MessageContext(senderName, messagePreview, conversationUrl)) == Some(d.email.html)
      ensures d.Sent? ==> d.email.html != ""
      ensures var html := RenderTemplate(MessageTemplate, MessageContext(senderName, messagePreview, conversationUrl));
              (html == "" ==> d == NotSent) &&
              (html != "" ==> d == SendEmail(recipientEmail, MessageSubject(senderName), html, net))
    {
      Notify(recipientEmail, MessageSubject(senderName), MessageTemplate,
             MessageContext(senderName, messagePreview, conversationUrl), net)
    }

    function SendListingAddedNotification(recipientEmail: string, hostName: string, listingTitle: string,
                                          listingAddress: string, listingPrice: string, startDate: string,
                                          endDate: string, listingUrl: string, net: Network): (d: Delivery)
      ensures d.Sent? ==> d.email.to == recipientEmail && d.email.subject == ListingAddedSubject(listingTitle)
      ensures var html := RenderTemplate(ListingAddedTemplate, ListingContext(hostName, listingTitle, listingAddress, listingPrice, startDate, endDate, listingUrl));
              (html == "" ==> d == NotSent) &&
              (html != "" ==> d == SendEmail(recipientEmail, ListingAddedSubject(listingTitle), html, net))
    {
      Notify(recipientEmail, ListingAddedSubject(listingTitle), ListingAddedTemplate,
             ListingContext(hostName, listingTitle, listingAddress, listingPrice, startDate, endDate, listingUrl), net)
    }

    function SendListingEditedNotification(recipientEmail: string, hostName: string, listingTitle: string,
                                           listingAddress: string, listingPrice: string, startDate: string,
                                           endDate: string, listingUrl: string, net: Network): (d: Delivery)
      ensures d.Sent? ==> d.email.to == recipientEmail && d.email.subject == ListingEditedSubject(listingTitle)
      ensures var html := RenderTemplate(ListingEditedTemplate, ListingContext(hostName, listingTitle, listingAddress, listingPrice, startDate, endDate, listingUrl));
              (html == "" ==> d == NotSent) &&
              (html != "" ==> d == SendEmail(recipientEmail, ListingEditedSubject(listingTitle), html, net))
    {
      Notify(recipientEmail, ListingEditedSubject(listingTitle), ListingEditedTemplate,
             ListingContext(hostName, listingTitle, listingAddress, listingPrice, startDate, endDate, listingUrl), net)
    }

    function SendListingDeletedNotification(recipientEmail: string, hostName: string, listingTitle: string,
                                            listingAddress: string, listingPrice: string, removalDate: string,
                                            dashboardUrl: string, net: Network): (d: Delivery)
      ensures d.Sent? ==> d.email.to == recipientEmail && d.email.subject == ListingDeletedSubject(listingTitle)
      ensures var html := RenderTemplate(ListingDeletedTemplate, ListingDeletedContext(hostName, listingTitle, listingAddress, listingPrice, removalDate, dashboardUrl));
              (html == "" ==> d == NotSent) &&
              (html != "" ==> d == SendEmail(recipientEmail, ListingDeletedSubject(listingTitle), html, net))
    {
      Notify(recipientEmail, ListingDeletedSubject(listingTitle), ListingDeletedTemplate,
             ListingDeletedContext(hostName, listingTitle, listingAddress, listingPrice, removalDate, dashboardUrl), net)
    }

    function SendListingExpiredNotification(recipientEmail: string, hostName: string, listingTitle: string,
                                            listingAddress: string, listingPrice: string, endDate: string,
                                            expirationDate: string, dashboardUrl: string, net: Network): (d: Delivery)
      ensures d.Sent? ==> d.email.to == recipientEmail && d.email.subject == ListingExpiredSubject(listingTitle)
      ensures var html := RenderTemplate(ListingExpiredTemplate, ListingExpiredContext(hostName, listingTitle, listingAddress, listingPrice, endDate, expirationDate, dashboardUrl));
              (html == "" ==> d == NotSent) &&
              (html != "" ==> d == SendEmail(recipientEmail, ListingExpiredSubject(listingTitle), html, net))
    {
      Notify(recipientEmail, ListingExpiredSubject(listingTitle), ListingExpiredTemplate,
             ListingExpiredContext(hostName, listingTitle, listingAddress, listingPrice, endDate, expirationDate,
                                   dashboardUrl), net)
    }
  }
}
