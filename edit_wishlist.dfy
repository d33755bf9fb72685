/**
 * The item editor of a wishlist (src/components/EditWishlist.tsx). The
 * component keeps a working copy of the items (`tempItems`) and the set of
 * ASINs touched since the last save (`changedItems`); its updaters are
 * `filter`/`map` transforms of that copy. Here the updaters are functions on
 * values and the component state is the class `Editor`, whose methods make
 * the same setter calls the handlers make.
 *
 * `confirm`, the HTTP requests and timers are not modelled: the user's answer
 * and the replies are parameters.
 */
module EditWishlist {
  import opened Wrappers
  import opened Text

  /** An `AlternativeLink`: a link to the product in another store; the optional fields are `None` when absent. */
  datatype AlternativeLink = AlternativeLink(store: string, url: string, price: Option<string>, img: Option<string>,
                                             matchScore: Option<int>)

  /** A `WishlistItem`; `alternativeLinks`, `comment` and `isManual` are optional. */
  datatype WishlistItem = WishlistItem(asin: string, title: string, price: string, img: string, url: string,
                                       affiliate: string, alternativeLinks: Option<seq<AlternativeLink>>,
                                       comment: Option<string>, isManual: Option<bool>)

  /** The string-valued keys of `WishlistItem` that `updateItemField` is given a string for. */
  datatype Field = Asin | Title | Price | Img | Url | Affiliate | Comment

  datatype MessageKind = Success | Failure

  /** The banner `{ type, text }`. */
  datatype Message = Message(kind: MessageKind, text: string)

  // ---------------------------------------------------------------------------
  // The updaters on values
  // ---------------------------------------------------------------------------

  /** `items.filter(item => item.asin !== asin)`. */
  function Without(items: seq<WishlistItem>, asin: string): seq<WishlistItem> {
    Keep(items, (item: WishlistItem) => item.asin != asin)
  }

  /** `items.map(item => item.asin === asin ? f(item) : item)`. */
  function MapWhere(items: seq<WishlistItem>, asin: string, f: WishlistItem -> WishlistItem): (r: seq<WishlistItem>)
    ensures |r| == |items|
  {
    seq(|items|, i requires 0 <= i < |items| => if items[i].asin == asin then f(items[i]) else items[i])
  }

  /** The value of a string field; an absent comment reads as "". */
  function FieldOf(item: WishlistItem, field: Field): string {
    match field
    case Asin => item.asin
    case Title => item.title
    case Price => item.price
    case Img => item.img
    case Url => item.url
    case Affiliate => item.affiliate
    case Comment => item.comment.GetOr("")
  }

  /** `{ ...item, [field]: value }`. */
  function SetField(item: WishlistItem, field: Field, value: string): WishlistItem {
    match field
    case Asin => item.(asin := value)
    case Title => item.(title := value)
    case Price => item.(price := value)
    case Img => item.(img := value)
    case Url => item.(url := value)
    case Affiliate => item.(affiliate := value)
    case Comment => item.(comment := Some(value))
  }

  predicate IsNoon(link: AlternativeLink) { link.store == "noon" }

  /** `alternativeLinks.some(link => link.store === 'noon')`. */
  predicate HasNoon(links: seq<AlternativeLink>) {
    exists i :: 0 <= i < |links| && IsNoon(links[i])
  }

  /** The Noon upsert: every `noon` link replaced when there is one, else the link appended. */
  function UpsertNoon(links: seq<AlternativeLink>, link: AlternativeLink): (r: seq<AlternativeLink>) {
    if HasNoon(links) then seq(|links|, i requires 0 <= i < |links| => if IsNoon(links[i]) then link else links[i])
    else links + [link]
  }

  /** The item with the Noon link upserted into its (possibly absent) list of links. */
  function WithNoonLink(item: WishlistItem, link: AlternativeLink): WishlistItem {
    item.(alternativeLinks := Some(UpsertNoon(item.alternativeLinks.GetOr([]), link)))
  }

  /** `(item.alternativeLinks || []).filter(link => link.store !== store)`. */
  function LinksWithout(links: seq<AlternativeLink>, store: string): seq<AlternativeLink> {
    Keep(links, (link: AlternativeLink) => link.store != store)
  }

  function WithoutStore(item: WishlistItem, store: string): WishlistItem {
    item.(alternativeLinks := Some(LinksWithout(item.alternativeLinks.GetOr([]), store)))
  }

  /** `{ ...item, url: u, affiliate: u }`. */
  function WithUrl(item: WishlistItem, url: string): WishlistItem {
    item.(url := url, affiliate := url)
  }

  /** `commentValue.trim() || undefined`. */
  function CommentValue(text: string): Option<string> {
    if Trim(text) == "" then None else Some(Trim(text))
  }

  function WithComment(item: WishlistItem, text: string): WishlistItem {
    item.(comment := CommentValue(text))
  }

  // ---------------------------------------------------------------------------
  // Messages, the short ID and the public link
  // ---------------------------------------------------------------------------

  /** `${n}` for an integer. */
  function IntText(n: int): string {
    if n < 0 then "-" + NatToString(-n) else NatToString(n)
  }

  const NoonWarningMark: string := "\U{26A0}\U{FE0F}"

  /** Below this match score the found Noon product is flagged for checking. */
  const NoonWarningBelow: int := 50

  /** The success banner after a Noon link is stored. */
  function NoonFoundMessage(matchScore: int): Message {
    if matchScore < NoonWarningBelow then
      Message(Success, NoonWarningMark + " На Noon найдено похожее (совпадение: " + IntText(matchScore) + "%) - проверьте товар!")
    else Message(Success, "\U{2713} На Noon найдено (совпадение: " + IntText(matchScore) + "%)")
  }

  const FormatError: string := "Может содержать буквы, цифры, подчеркивание и дефис (3-20 символов)"
  const TakenError: string := "Этот адрес уже занят"
  const CheckError: string := "Ошибка проверки"

  /** What `validateShortId` returns and leaves in `shortIdError`. */
  datatype Verdict = Verdict(accepted: bool, error: Option<string>)

  /**
   * `validateShortId(value)`: a blank value is accepted; otherwise the format
   * is checked first, then availability (`None` when the request or its JSON
   * fails, else `data.available`).
   */
  function ShortIdVerdict(value: string, available: Option<bool>): Verdict {
    if Trim(value) == "" then Verdict(true, None)
    else if !IsSlug(value) then Verdict(false, Some(FormatError))
    else
      match available
      case None => Verdict(false, Some(CheckError))
      case Some(false) => Verdict(false, Some(TakenError))
      case Some(true) => Verdict(true, None)
  }

  /**
   * `getPublicUrl()` of the editor; `baseUrl` is `window.location.origin` and
   * `shortId`, `id` are those of the loaded wishlist.
   */
  function PublicUrl(baseUrl: string, username: string, customShortId: string, shortId: string, id: string): string {
    var slug := Or(customShortId, Or(shortId, id));
    if username != "" && customShortId != "" then baseUrl + "/share/" + username + "/" + customShortId
    else if username != "" then baseUrl + "/share/" + username + "/" + Or(shortId, id)
    else baseUrl + "/w/" + slug
  }

  // ---------------------------------------------------------------------------
  // The component state
  // ---------------------------------------------------------------------------

  /** The reply of `/api/search-noon`, or `RequestFailed` when the request throws or is not ok. */
  datatype NoonReply =
    | RequestFailed
    | Reply(success: bool, product: Option<NoonHit>, matchScore: Option<int>)

  datatype NoonHit = NoonHit(url: string, price: string, img: string)

  class Editor {
    /** `tempItems`. */
    var items: seq<WishlistItem>
    /** `wishlist.items`: what the server last returned. */
    var savedItems: seq<WishlistItem>
    /** `changedItems`. */
    var changed: set<string>
    var message: Option<Message>
    var editUrlValue: string
    var editingUrl: Option<string>
    var commentValue: string
    var editingComment: Option<string>
    var shortIdError: Option<string>

    /** The state after the wishlist is loaded: the working copy is the saved list, nothing changed. */
    constructor(loaded: seq<WishlistItem>)
      ensures items == loaded && savedItems == loaded && changed == {}
      ensures message.None? && editingUrl.None? && editingComment.None? && shortIdError.None?
      ensures editUrlValue == "" && commentValue == ""
    {
      items := loaded;
      savedItems := loaded;
      changed := {};
      message := None;
      editUrlValue := "";
      editingUrl := None;
      commentValue := "";
      editingComment := None;
      shortIdError := None;
    }

    /**
     * `deleteItem`: after confirmation the item leaves the working copy and the
     * list is saved; `saved` is the saved wishlist's items, `None` when the
     * request fails, which restores the working copy from the saved list.
     */
    method DeleteItem(asin: string, confirmed: bool, saved: Option<seq<WishlistItem>>)
      modifies this`items, this`savedItems, this`message
      ensures !confirmed ==> items == old(items) && savedItems == old(savedItems) && message == old(message)
      ensures confirmed && saved.Some? ==>
        items == Without(old(items), asin) && savedItems == saved.value && message == Some(Message(Success, "Товар удален!"))
      ensures confirmed && saved.None? ==>
        items == old(savedItems) && savedItems == old(savedItems) && message == Some(Message(Failure, "Не удалось удалить товар"))
    {
      if !confirmed {
        return;
      }
      items := Without(items, asin);
      if saved.Some? {
        savedItems := saved.value;
        message := Some(Message(Success, "Товар удален!"));
      } else {
        message := Some(Message(Failure, "Не удалось удалить товар"));
        items := savedItems;
      }
    }

    /** `updateItemField`: the field of every item with that ASIN is set, and the ASIN is marked changed. */
    method UpdateItemField(asin: string, field: Field, value: string)
      modifies this`items, this`changed
      ensures items == MapWhere(old(items), asin, (item: WishlistItem) => SetField(item, field, value))
      ensures changed == old(changed) + {asin}
    {
      items := MapWhere(items, asin, (item: WishlistItem) => SetField(item, field, value));
      changed := changed + {asin};
    }

    /** The state updates of `searchNoonLink` once the search has answered. */
    method SearchNoonResult(asin: string, reply: NoonReply)
      modifies this`items, this`changed, this`message
      ensures reply.Reply? && reply.success && reply.product.Some? ==>
        var score := reply.matchScore.GetOr(0);
        var hit := reply.product.value;
        var link := AlternativeLink("noon", hit.url, Some(hit.price), Some(hit.img), Some(score));
        && items == MapWhere(old(items), asin, (item: WishlistItem) => WithNoonLink(item, link))
        && changed == old(changed) + {asin}
        && message == Some(NoonFoundMessage(score))
      ensures reply.Reply? && !(reply.success && reply.product.Some?) ==>
        items == old(items) && changed == old(changed)
        && message == Some(Message(Failure, "Товар не найден на noon.com или совпадение слишком низкое"))
      ensures reply.RequestFailed? ==>
        items == old(items) && changed == old(changed) && message == Some(Message(Failure, "Ошибка поиска на noon.com"))
    {
      if reply.RequestFailed? {
        message := Some(Message(Failure, "Ошибка поиска на noon.com"));
        return;
      }
      if reply.success && reply.product.Some? {
        var score := reply.matchScore.GetOr(0);
        var hit := reply.product.value;
        var link := AlternativeLink("noon", hit.url, Some(hit.price), Some(hit.img), Some(score));
        items := MapWhere(items, asin, (item: WishlistItem) => WithNoonLink(item, link));
        changed := changed + {asin};
        message := Some(NoonFoundMessage(score));
      } else {
        message := Some(Message(Failure, "Товар не найден на noon.com или совпадение слишком низкое"));
      }
    }

    /** `removeAlternativeLink`: the store's links leave the matching items. */
    method RemoveAlternativeLink(asin: string, store: string)
      modifies this`items, this`changed, this`message
      ensures items == MapWhere(old(items), asin, (item: WishlistItem) => WithoutStore(item, store))
      ensures changed == old(changed) + {asin}
      ensures message == Some(Message(Success, "Ссылка удалена! Не забудьте сохранить изменения"))
    {
      items := MapWhere(items, asin, (item: WishlistItem) => WithoutStore(item, store));
      changed := changed + {asin};
      message := Some(Message(Success, "Ссылка удалена! Не забудьте сохранить изменения"));
    }

    /** `saveEditedUrl`: a blank URL is refused; otherwise url and affiliate both become the trimmed text. */
    method SaveEditedUrl(asin: string)
      modifies this`items, this`changed, this`message, this`editingUrl
      ensures Trim(old(editUrlValue)) == "" ==>
        items == old(items) && changed == old(changed) && editingUrl == old(editingUrl)
        && message == Some(Message(Failure, "Ссылка не может быть пустой"))
      ensures Trim(old(editUrlValue)) != "" ==>
        var url := Trim(old(editUrlValue));
        && items == MapWhere(old(items), asin, (item: WishlistItem) => WithUrl(item, url))
        && changed == old(changed) + {asin} && editingUrl.None?
        && message == Some(Message(Success, "Ссылка обновлена! Не забудьте сохранить изменения"))
    {
      var url := Trim(editUrlValue);
      if url == "" {
        message := Some(Message(Failure, "Ссылка не может быть пустой"));
        return;
      }
      items := MapWhere(items, asin, (item: WishlistItem) => WithUrl(item, url));
      changed := changed + {asin};
      editingUrl := None;
      message := Some(Message(Success, "Ссылка обновлена! Не забудьте сохранить изменения"));
    }

    /** `saveComment`: the trimmed comment, or none when it is blank; the editor closes and its text is cleared. */
    method SaveComment(asin: string)
      modifies this`items, this`changed, this`message, this`editingComment, this`commentValue
      ensures items == MapWhere(old(items), asin, (item: WishlistItem) => WithComment(item, old(commentValue)))
      ensures changed == old(changed) + {asin}
      ensures editingComment.None? && commentValue == ""
      ensures message == Some(Message(Success, "Комментарий сохранен! Не забудьте сохранить товар"))
    {
      var text := commentValue;
      items := MapWhere(items, asin, (item: WishlistItem) => WithComment(item, text));
      changed := changed + {asin};
      editingComment := None;
      commentValue := "";
      message := Some(Message(Success, "Комментарий сохранен! Не забудьте сохранить товар"));
    }

    /** `validateShortId`: the verdict is returned and its message left in `shortIdError`. */
    method ValidateShortId(value: string, available: Option<bool>) returns (accepted: bool)
      modifies this`shortIdError
      ensures Verdict(accepted, shortIdError) == ShortIdVerdict(value, available)
    {
      if Trim(value) == "" {
        shortIdError := None;
        return true;
      }
      if !IsSlug(value) {
        shortIdError := Some(FormatError);
        return false;
      }
      match available
      case None =>
        shortIdError := Some(CheckError);
        accepted := false;
      case Some(ok) =>
        if !ok {
          shortIdError := Some(TakenError);
          return false;
        }
        shortIdError := None;
        accepted := true;
    }
  }

  // ---------------------------------------------------------------------------
  // Properties
  // ---------------------------------------------------------------------------

  /** After a delete no item has that ASIN, and every other item is still there, as often as before. */
  lemma DeleteSpec(items: seq<WishlistItem>, asin: string)
    ensures forall i :: 0 <= i < |Without(items, asin)| ==> Without(items, asin)[i].asin != asin
    ensures forall x: WishlistItem :: x in Without(items, asin) <==> x in items && x.asin != asin
    ensures forall x: WishlistItem :: x.asin != asin ==> multiset(Without(items, asin))[x] == multiset(items)[x]
  {
    KeepMembers(items, (item: WishlistItem) => item.asin != asin);
    KeepCounts(items, (item: WishlistItem) => item.asin != asin);
  }

  /** Deleting keeps the order: the list splits into parts that are filtered one by one. */
  lemma DeleteKeepsOrder(a: seq<WishlistItem>, b: seq<WishlistItem>, asin: string)
    ensures Without(a + b, asin) == Without(a, asin) + Without(b, asin)
  {
    KeepConcat(a, b, (item: WishlistItem) => item.asin != asin);
  }

  /** A map over the items leaves the items of other ASINs as they were, in place. */
  lemma MapWhereOthers(items: seq<WishlistItem>, asin: string, f: WishlistItem -> WishlistItem, i: nat)
    requires i < |items| && items[i].asin != asin
    ensures MapWhere(items, asin, f)[i] == items[i]
  {
  }

  /** Setting a field changes that field to the value and no other field; links and the manual flag stay. */
  lemma SetFieldSpec(item: WishlistItem, field: Field, value: string)
    ensures FieldOf(SetField(item, field, value), field) == value
    ensures forall other :: other != field ==> FieldOf(SetField(item, field, value), other) == FieldOf(item, other)
    ensures SetField(item, field, value).alternativeLinks == item.alternativeLinks
    ensures SetField(item, field, value).isManual == item.isManual
  {
  }

  /**
   * With a `noon` link present every `noon` link becomes the new one and the
   * count is unchanged; without one the link is appended. Links of other
   * stores are kept in place.
   */
  lemma UpsertNoonSpec(links: seq<AlternativeLink>, link: AlternativeLink)
    ensures HasNoon(links) ==> |UpsertNoon(links, link)| == |links|
    ensures HasNoon(links) ==>
      forall i :: 0 <= i < |links| ==> UpsertNoon(links, link)[i] == if IsNoon(links[i]) then link else links[i]
    ensures !HasNoon(links) ==> UpsertNoon(links, link) == links + [link]
  {
  }

  /** The links of other stores are the same list, in the same order, before and after the upsert. */
  lemma UpsertNoonKeepsOthers(links: seq<AlternativeLink>, link: AlternativeLink)
    requires IsNoon(link)
    ensures Keep(UpsertNoon(links, link), (l: AlternativeLink) => !IsNoon(l)) == Keep(links, (l: AlternativeLink) => !IsNoon(l))
  {
    var others := (l: AlternativeLink) => !IsNoon(l);
    if HasNoon(links) {
      KeepPointwise(links, UpsertNoon(links, link), others);
    } else {
      KeepConcat(links, [link], others);
      assert Keep([link], others) == [];
    }
  }

  /** Two lists that agree wherever either element passes the test filter to the same list. */
  lemma {:induction false} KeepPointwise<T>(s: seq<T>, t: seq<T>, keep: T -> bool)
    requires |s| == |t|
    requires forall i :: 0 <= i < |s| ==> keep(s[i]) == keep(t[i]) && (keep(s[i]) ==> s[i] == t[i])
    ensures Keep(s, keep) == Keep(t, keep)
  {
    if s != [] {
      KeepPointwise(s[1..], t[1..], keep);
    }
  }

  /** Searching twice with the same answer stores the same links as searching once. */
  lemma UpsertNoonIdempotent(links: seq<AlternativeLink>, link: AlternativeLink)
    requires IsNoon(link)
    ensures UpsertNoon(UpsertNoon(links, link), link) == UpsertNoon(links, link)
  {
    var once := UpsertNoon(links, link);
    assert HasNoon(once) by {
      if HasNoon(links) {
        var i :| 0 <= i < |links| && IsNoon(links[i]);
        assert IsNoon(once[i]);
      } else {
        assert IsNoon(once[|links|]);
      }
    }
  }

  /** After the removal no link of that store is left; the others stay, in order. */
  lemma RemoveStoreSpec(links: seq<AlternativeLink>, store: string)
    ensures forall i :: 0 <= i < |LinksWithout(links, store)| ==> LinksWithout(links, store)[i].store != store
    ensures forall l :: l in LinksWithout(links, store) <==> l in links && l.store != store
  {
    KeepMembers(links, (link: AlternativeLink) => link.store != store);
  }

  /** The removal keeps the order of the remaining links. */
  lemma RemoveStoreKeepsOrder(a: seq<AlternativeLink>, b: seq<AlternativeLink>, store: string)
    ensures LinksWithout(a + b, store) == LinksWithout(a, store) + LinksWithout(b, store)
  {
    KeepConcat(a, b, (link: AlternativeLink) => link.store != store);
  }

  /** A stored comment is never blank and never has white space at either end; a blank comment is removed. */
  lemma CommentValueSpec(text: string)
    ensures CommentValue(text).None? <==> Trim(text) == ""
    ensures CommentValue(text).Some? ==>
      var c := CommentValue(text).value;
      c != "" && !IsSpace(c[0]) && !IsSpace(c[|c| - 1]) && exists k: nat :: InfixAt(text, c, k)
  {
    if Trim(text) != "" {
      var k := TrimInfix(text);
    }
  }

  /** The warning banner is shown exactly for scores below 50. */
  lemma NoonMessageThreshold(matchScore: int)
    ensures NoonFoundMessage(matchScore).kind == Success
    ensures StartsWith(NoonFoundMessage(matchScore).text, NoonWarningMark) <==> matchScore < NoonWarningBelow
  {
    var text := NoonFoundMessage(matchScore).text;
    if matchScore >= NoonWarningBelow {
      assert text[0] == '\U{2713}';
    }
  }

  /**
   * A custom short ID is accepted exactly when it is blank, or well-formed and
   * reported available; a malformed one is refused before availability is asked.
   */
  lemma ShortIdVerdictSpec(value: string, available: Option<bool>, other: Option<bool>)
    ensures ShortIdVerdict(value, available).accepted <==> Trim(value) == "" || (IsSlug(value) && available == Some(true))
    ensures ShortIdVerdict(value, available).accepted <==> ShortIdVerdict(value, available).error.None?
    ensures Trim(value) != "" && !IsSlug(value) ==>
      ShortIdVerdict(value, available) == ShortIdVerdict(value, other) == Verdict(false, Some(FormatError))
  {
  }

  /** The editor's link is a `/share/` link exactly when the owner has a user name. */
  lemma PublicUrlShare(baseUrl: string, username: string, customShortId: string, shortId: string, id: string)
    ensures StartsWith(PublicUrl(baseUrl, username, customShortId, shortId, id), baseUrl + "/share/") <==> username != ""
  {
    var r := PublicUrl(baseUrl, username, customShortId, shortId, id);
    var share := baseUrl + "/share/";
    if username == "" {
      assert r[|baseUrl| + 1] == 'w';
      assert share[|baseUrl| + 1] == 's';
    } else {
      var rest := if customShortId != "" then username + "/" + customShortId else username + "/" + Or(shortId, id);
      assert r == share + rest;
      assert r[..|share|] == share;
    }
  }

  /**
   * The three forms of the editor's link: `/share/<user>/<custom>`,
   * `/share/<user>/<short_id or id>`, and `/w/<custom or short_id or id>`.
   */
  lemma PublicUrlForms(baseUrl: string, username: string, customShortId: string, shortId: string, id: string)
    ensures username != "" && customShortId != "" ==>
      PublicUrl(baseUrl, username, customShortId, shortId, id) == baseUrl + "/share/" + username + "/" + customShortId
    ensures username != "" && customShortId == "" ==>
      PublicUrl(baseUrl, username, customShortId, shortId, id) == baseUrl + "/share/" + username + "/" + Or(shortId, id)
    ensures username == "" ==>
      PublicUrl(baseUrl, username, customShortId, shortId, id) == baseUrl + "/w/" + Or(customShortId, Or(shortId, id))
  {
  }
}
