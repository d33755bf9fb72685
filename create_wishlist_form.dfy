/**
 * The form that creates a wishlist (src/components/CreateWishlistForm.tsx):
 * the textarea of links is cut into URLs, every URL must be an Amazon
 * wishlist or product link, and the request body is assembled from the
 * fields. WHATWG URL parsing is the parameter `parse` (`None` where
 * `new URL` throws); the request itself is the reply given to `Finish`.
 */
module CreateWishlistForm {
  import opened Wrappers
  import opened Text
  import I18n

  /** The parts of a parsed URL the check reads. */
  datatype ParsedUrl = ParsedUrl(hostname: string, pathname: string)

  /** The paths of a wishlist or a product page. */
  predicate AmazonPath(pathname: string) {
    Contains(pathname, "/wishlist/") || Contains(pathname, "/dp/") || Contains(pathname, "/gp/product/")
  }

  /** `hostname.includes('amazon.')`. */
  predicate AmazonHost(hostname: string) {
    Contains(hostname, "amazon.")
  }

  /** One URL passes `validateUrls`: it parses once trimmed, on an `amazon.` host and an Amazon path. */
  predicate AcceptedUrl(url: string, parse: string -> Option<ParsedUrl>) {
    match parse(Trim(url))
    case None => false
    case Some(u) => AmazonHost(u.hostname) && AmazonPath(u.pathname)
  }

  /** Every URL of the list passes. */
  predicate AllAccepted(urls: seq<string>, parse: string -> Option<ParsedUrl>) {
    forall i :: 0 <= i < |urls| ==> AcceptedUrl(urls[i], parse)
  }

  /** `validateUrls`: the first URL that fails ends the loop with `false`; an empty list is refused. */
  method ValidateUrls(urls: seq<string>, parse: string -> Option<ParsedUrl>) returns (ok: bool)
    ensures ok <==> |urls| > 0 && AllAccepted(urls, parse)
  {
    if |urls| == 0 {
      return false;
    }
    for i := 0 to |urls|
      invariant forall j :: 0 <= j < i ==> AcceptedUrl(urls[j], parse)
    {
      match parse(Trim(urls[i]))
      case None =>
        return false;
      case Some(u) =>
        if !AmazonHost(u.hostname) {
          return false;
        }
        var isValid := AmazonPath(u.pathname);
        if !isValid {
          return false;
        }
    }
    return true;
  }

  /** `lines.map(u => u.trim())`. */
  function TrimAll(lines: seq<string>): (r: seq<string>)
    ensures |r| == |lines|
    ensures forall i :: 0 <= i < |lines| ==> r[i] == Trim(lines[i])
  {
    if lines == [] then [] else [Trim(lines[0])] + TrimAll(lines[1..])
  }

  /** The lines of the textarea, each trimmed. */
  function TrimmedLines(text: string): (r: seq<string>)
    ensures |r| == |Split(text, '\n')|
  {
    TrimAll(Split(text, '\n'))
  }

  predicate NonEmpty(u: string) { |u| > 0 }

  /** `url.split('\n').map(u => u.trim()).filter(u => u.length > 0)`. */
  function UrlLines(text: string): seq<string> {
    Keep(TrimmedLines(text), NonEmpty)
  }

  /**
   * The URLs are exactly the non-blank lines of the textarea, trimmed and in
   * order: none is empty, none holds a line break, none starts or ends with
   * white space.
   */
  lemma UrlLinesSpec(text: string)
    ensures forall u :: u in UrlLines(text) <==> u != "" && u in TrimmedLines(text)
    ensures forall u :: u in UrlLines(text) ==> '\n' !in u && !IsSpace(u[0]) && !IsSpace(u[|u| - 1])
  {
    KeepMembers(TrimmedLines(text), NonEmpty);
    forall u | u in UrlLines(text)
      ensures '\n' !in u && !IsSpace(u[0]) && !IsSpace(u[|u| - 1])
    {
      var i :| 0 <= i < |TrimmedLines(text)| && TrimmedLines(text)[i] == u;
      TrimmedLineShape(text, i);
    }
  }

  /** A trimmed line holds no line break and has no white space at either end. */
  lemma TrimmedLineShape(text: string, i: nat)
    requires i < |TrimmedLines(text)|
    ensures '\n' !in TrimmedLines(text)[i]
    ensures var u := TrimmedLines(text)[i]; u == "" || (!IsSpace(u[0]) && !IsSpace(u[|u| - 1]))
  {
    var line := Split(text, '\n')[i];
    assert TrimmedLines(text)[i] == Trim(line);
    assert '\n' !in line by {
      SplitNoSeparator(text, '\n');
    }
    TrimKeepsOut(line, '\n');
  }

  /** A blank textarea gives no URL. */
  lemma BlankTextNoUrls(text: string)
    requires forall i :: 0 <= i < |text| ==> IsSpace(text[i])
    ensures UrlLines(text) == []
  {
    var lines := TrimmedLines(text);
    if Keep(lines, NonEmpty) != [] {
      KeepMembers(lines, NonEmpty);
      var u := Keep(lines, NonEmpty)[0];
      assert u in lines;
      var i :| 0 <= i < |lines| && lines[i] == u;
      BlankLine(text, i);
    }
  }

  /** Every line of a blank textarea trims to "". */
  lemma BlankLine(text: string, i: nat)
    requires forall j :: 0 <= j < |text| ==> IsSpace(text[j])
    requires i < |TrimmedLines(text)|
    ensures TrimmedLines(text)[i] == ""
  {
    var line := Split(text, '\n')[i];
    assert TrimmedLines(text)[i] == Trim(line);
    SplitPieceChars(text, '\n');
    forall j | 0 <= j < |line| ensures IsSpace(line[j]) {
      assert line[j] in line;
      assert line[j] in text;
      var n :| 0 <= n < |text| && text[n] == line[j];
    }
    if Trim(line) != "" {
      var k := TrimInfix(line);
    }
  }

  // ---------------------------------------------------------------------------
  // The request body
  // ---------------------------------------------------------------------------

  /**
   * The option label of the form's own list: the emoji, a space and the
   * Russian name. The list has the rows of `EVENT_TYPES` in src/lib/i18n.ts.
   */
  function FormLabel(t: I18n.EventType): string {
    t.emoji + " " + t.ru
  }

  /**
   * `event_type`: the trimmed custom text for `other`; for a listed value its
   * label without the leading emoji (`replace(/^[^\s]+\s/, '')`); otherwise "".
   */
  function EventTypeField(types: seq<I18n.EventType>, eventType: string, customEvent: string): string {
    if eventType == "other" then Trim(customEvent)
    else
      match I18n.FindByValue(types, eventType)
      case Some(t) => I18n.DropFirstToken(FormLabel(t))
      case None => ""
  }

  /** `eventDate || null`. */
  function EventDateField(eventDate: string): Option<string> {
    if eventDate == "" then None else Some(eventDate)
  }

  /** The body of `POST /api/wishlists`. */
  datatype Request = Request(title: string, urls: seq<string>, eventType: string, eventDate: Option<string>)

  /** What a submission does: stop with an error, or send a request. */
  datatype Submission = Refused(error: string) | Send(request: Request)

  const TitleMissing: string := "Укажите название вишлиста"
  const UrlsMissing: string := "Добавьте хотя бы одну ссылку на товар или вишлист Amazon"
  const UrlsInvalid: string := "Все ссылки должны быть корректными Amazon URL (товары или вишлисты)"

  /** The checks of `handleSubmit` in their order, and the body it sends; `types` is the form's list of event types. */
  function Submit(title: string, urlText: string, types: seq<I18n.EventType>, eventType: string, customEvent: string,
                  eventDate: string, parse: string -> Option<ParsedUrl>): Submission
  {
    var urls := UrlLines(urlText);
    if Trim(title) == "" then Refused(TitleMissing)
    else if |urls| == 0 then Refused(UrlsMissing)
    else if !AllAccepted(urls, parse) then Refused(UrlsInvalid)
    else Send(Request(Trim(title), urls, EventTypeField(types, eventType, customEvent), EventDateField(eventDate)))
  }

  /** The checks of `handleSubmit`, one after the other, each ending the submission when it fails. */
  method Checks(title: string, urlText: string, types: seq<I18n.EventType>, eventType: string, customEvent: string,
                eventDate: string, parse: string -> Option<ParsedUrl>) returns (outcome: Submission)
    ensures outcome == Submit(title, urlText, types, eventType, customEvent, eventDate, parse)
  {
    if Trim(title) == "" {
      return Refused(TitleMissing);
    }
    var urls := UrlLines(urlText);
    if |urls| == 0 {
      return Refused(UrlsMissing);
    }
    var valid := ValidateUrls(urls, parse);
    if !valid {
      return Refused(UrlsInvalid);
    }
    return Send(Request(Trim(title), urls, EventTypeField(types, eventType, customEvent), EventDateField(eventDate)));
  }

  /** The reply to the request: created, refused by the server (`data.error`), or a thrown error's message. */
  datatype CreateReply = Created | ServerError(error: string) | Thrown(message: string)

  /** The form's state. */
  class Form {
    /** The list of event types the form offers. */
    const eventTypes: seq<I18n.EventType>
    var title: string
    var url: string
    var eventType: string
    var customEvent: string
    var eventDate: string
    var loading: bool
    var error: Option<string>
    var success: bool

    constructor()
      ensures eventTypes == I18n.EventTypes
      ensures title == "" && url == "" && eventType == "" && customEvent == "" && eventDate == ""
      ensures !loading && error.None? && !success
    {
      eventTypes := I18n.EventTypes;
      title, url, eventType, customEvent, eventDate := "", "", "", "", "";
      loading, error, success := false, None, false;
    }

    /**
     * `handleSubmit` up to the request: the banner is cleared, the first
     * failing check sets its error, and otherwise the form starts loading and
     * the body is returned.
     */
    method HandleSubmit(parse: string -> Option<ParsedUrl>) returns (request: Option<Request>)
      modifies this`error, this`success, this`loading
      ensures !success
      ensures var s := Submit(title, url, eventTypes, eventType, customEvent, eventDate, parse);
        && (s.Refused? ==> request.None? && error == Some(s.error) && loading == old(loading))
        && (s.Send? ==> request == Some(s.request) && error.None? && loading)
    {
      error := None;
      success := false;
      var outcome := Checks(title, url, eventTypes, eventType, customEvent, eventDate, parse);
      match outcome {
        case Refused(e) =>
          error := Some(e);
          request := None;
        case Send(body) =>
          loading := true;
          request := Some(body);
      }
    }

    /** The end of `handleSubmit`: success, or the error shown, and loading stops. */
    method Finish(reply: CreateReply)
      modifies this`error, this`success, this`loading
      ensures !loading
      ensures reply.Created? ==> success && error == old(error)
      ensures reply.ServerError? ==> error == Some(Or(reply.error, "Ошибка создания вишлиста")) && success == old(success)
      ensures reply.Thrown? ==> error == Some(Or(reply.message, "Не удалось создать вишлист")) && success == old(success)
    {
      match reply {
        case Created =>
          success := true;
        case ServerError(e) =>
          error := Some(Or(e, "Ошибка создания вишлиста"));
        case Thrown(m) =>
          error := Some(Or(m, "Не удалось создать вишлист"));
      }
      loading := false;
    }
  }

  // ---------------------------------------------------------------------------
  // Properties
  // ---------------------------------------------------------------------------

  /**
   * A request is sent exactly when the title is not blank, there is a URL and
   * every URL is accepted; the body carries the trimmed title and those URLs.
   */
  lemma SubmitSends(title: string, urlText: string, types: seq<I18n.EventType>, eventType: string, customEvent: string,
                    eventDate: string, parse: string -> Option<ParsedUrl>)
    ensures Submit(title, urlText, types, eventType, customEvent, eventDate, parse).Send? <==>
      Trim(title) != "" && |UrlLines(urlText)| > 0 && forall i :: 0 <= i < |UrlLines(urlText)| ==> AcceptedUrl(UrlLines(urlText)[i], parse)
    ensures Submit(title, urlText, types, eventType, customEvent, eventDate, parse).Send? ==>
      var r := Submit(title, urlText, types, eventType, customEvent, eventDate, parse).request;
      r.title == Trim(title) && r.urls == UrlLines(urlText) && r.title != ""
  {
  }

  /** The checks come in order: the title first, then the presence of URLs, then their validity. */
  lemma SubmitOrder(title: string, urlText: string, types: seq<I18n.EventType>, eventType: string, customEvent: string,
                    eventDate: string, parse: string -> Option<ParsedUrl>)
    ensures Trim(title) == "" ==> Submit(title, urlText, types, eventType, customEvent, eventDate, parse) == Refused(TitleMissing)
    ensures Trim(title) != "" && UrlLines(urlText) == [] ==>
      Submit(title, urlText, types, eventType, customEvent, eventDate, parse) == Refused(UrlsMissing)
    ensures Trim(title) != "" && UrlLines(urlText) != [] && Submit(title, urlText, types, eventType, customEvent, eventDate, parse).Refused? ==>
      Submit(title, urlText, types, eventType, customEvent, eventDate, parse).error == UrlsInvalid && exists i :: 0 <= i < |UrlLines(urlText)| && !AcceptedUrl(UrlLines(urlText)[i], parse)
  {
    var urls := UrlLines(urlText);
    if Trim(title) != "" && urls != [] && !(forall i :: 0 <= i < |urls| ==> AcceptedUrl(urls[i], parse)) {
      var i :| 0 <= i < |urls| && !AcceptedUrl(urls[i], parse);
    }
  }

  /** Dropping the emoji and the space after it leaves the name. */
  lemma DropEmoji(emoji: string, name: string)
    requires emoji != "" && NoSpace(emoji)
    ensures I18n.DropFirstToken(emoji + " " + name) == name
  {
    var s := emoji + " " + name;
    I18n.FirstSpaceIs(s, |emoji|);
    assert s[|emoji| + 1..] == name;
  }

  /** Every emoji of the table is one non-blank token. */
  lemma EmojisAreTokens()
    ensures forall t :: t in I18n.EventTypes ==> t.emoji != "" && NoSpace(t.emoji)
  {
    var types := I18n.EventTypes;
    forall t | t in types ensures t.emoji != "" && NoSpace(t.emoji) {
      var i :| 0 <= i < |types| && types[i] == t;
      EmojiToken(t.emoji);
    }
  }

  /** The emoji of the table are made of characters that are not white space. */
  lemma EmojiToken(e: string)
    requires e in {"\U{1F382}", "\U{1F384}", "\U{1F385}", "\U{1F48D}", "\U{1F491}", "\U{1F49D}", "\U{1F338}",
                   "\U{1F396}\U{FE0F}", "\U{1F393}", "\U{1F37C}", "\U{2728}"}
    ensures e != "" && NoSpace(e)
  {
  }

  /**
   * A listed event type other than `other` is sent as its Russian name, and
   * `other` as the trimmed custom text; an unlisted value is sent as "".
   */
  lemma EventTypeFieldSpec(types: seq<I18n.EventType>, eventType: string, customEvent: string)
    requires forall t :: t in types ==> t.emoji != "" && NoSpace(t.emoji)
    ensures eventType == "other" ==> EventTypeField(types, eventType, customEvent) == Trim(customEvent)
    ensures eventType != "other" ==>
      match I18n.FindByValue(types, eventType)
      case Some(t) => EventTypeField(types, eventType, customEvent) == t.ru
      case None => EventTypeField(types, eventType, customEvent) == ""
  {
    if eventType != "other" {
      match I18n.FindByValue(types, eventType)
      case Some(t) =>
        I18n.FindByValueSpec(types, eventType);
        DropEmoji(t.emoji, t.ru);
      case None =>
    }
  }

  /** With the form's own list, every listed type is sent as its Russian name. */
  lemma FormSendsRussianNames(eventType: string, customEvent: string)
    requires eventType != "other"
    ensures I18n.FindByValue(I18n.EventTypes, eventType).Some? ==>
      EventTypeField(I18n.EventTypes, eventType, customEvent) == I18n.FindByValue(I18n.EventTypes, eventType).value.ru
  {
    EmojisAreTokens();
    EventTypeFieldSpec(I18n.EventTypes, eventType, customEvent);
  }

  /** An empty date is sent as null, any other date as it is. */
  lemma EventDateFieldSpec(eventDate: string)
    ensures EventDateField(eventDate).None? <==> eventDate == ""
    ensures EventDateField(eventDate).Some? ==> EventDateField(eventDate).value == eventDate
  {
  }
}
