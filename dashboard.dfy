/**
 * The links and share data of the dashboard's wishlist cards
 * (src/components/DashboardContent.tsx). An absent optional field of a
 * wishlist is the empty string here, which JavaScript's truthiness treats
 * the same way.
 */
module Dashboard {
  import opened Text
  import EditWishlist

  /** The fields of a `Wishlist` the links use; `username` and `customShortId` are "" when absent. */
  datatype Card = Card(id: string, shortId: string, destination: string, customShortId: string, username: string)

  /** `getPublicUrl(wishlist)`: a path relative to the site. */
  function PublicPath(w: Card): string {
    if w.username != "" && w.customShortId != "" then "/share/" + w.username + "/" + w.customShortId
    else if w.username != "" then "/share/" + w.username + "/" + w.shortId
    else "/share/" + Or(w.customShortId, w.shortId)
  }

  /** What `handleShare` hands to the Web Share API. */
  datatype ShareData = ShareData(title: string, text: string, url: string)

  const DefaultTitle: string := "Мой вишлист"

  /** `handleShare`'s `shareData`, with `origin` being `window.location.origin`. */
  function Share(origin: string, w: Card): ShareData {
    ShareData(Or(w.destination, DefaultTitle),
              "Посмотрите мой вишлист \"" + w.destination + "\"!",
              origin + PublicPath(w))
  }

  /** The three forms of the dashboard link. */
  lemma PublicPathForms(w: Card)
    ensures w.username != "" && w.customShortId != "" ==> PublicPath(w) == "/share/" + w.username + "/" + w.customShortId
    ensures w.username != "" && w.customShortId == "" ==> PublicPath(w) == "/share/" + w.username + "/" + w.shortId
    ensures w.username == "" && w.customShortId != "" ==> PublicPath(w) == "/share/" + w.customShortId
    ensures w.username == "" && w.customShortId == "" ==> PublicPath(w) == "/share/" + w.shortId
  {
  }

  /** Every dashboard link is a `/share/` path, whatever fields the wishlist has. */
  lemma AlwaysShare(w: Card)
    ensures StartsWith(PublicPath(w), "/share/")
  {
    var rest := if w.username != "" && w.customShortId != "" then w.username + "/" + w.customShortId
      else if w.username != "" then w.username + "/" + w.shortId
      else Or(w.customShortId, w.shortId);
    assert PublicPath(w) == "/share/" + rest;
  }

  /** The shared URL is the origin followed by the dashboard link; the title is the destination unless it is empty. */
  lemma ShareSpec(origin: string, w: Card)
    ensures Share(origin, w).url == origin + PublicPath(w)
    ensures StartsWith(Share(origin, w).url, origin + "/share/")
    ensures Share(origin, w).title == DefaultTitle <==> w.destination == "" || w.destination == DefaultTitle
    ensures Share(origin, w).title != ""
  {
    AlwaysShare(w);
    var url := Share(origin, w).url;
    assert url[..|origin| + 7] == origin + "/share/" by {
      assert url == origin + PublicPath(w);
      assert PublicPath(w)[..7] == "/share/";
    }
  }

  /**
   * For an owner with a user name and a wishlist with a short ID, the
   * dashboard's link and the editor's link are the same page. Without a user
   * name they differ: the editor links `/w/<id>` and the dashboard
   * `/share/<id>`.
   */
  lemma SameLinkAsEditor(origin: string, w: Card)
    requires w.username != "" && w.shortId != ""
    ensures EditWishlist.PublicUrl(origin, w.username, w.customShortId, w.shortId, w.id) == origin + PublicPath(w)
  {
  }

  lemma EditorUsesOtherPathWithoutUser(origin: string, w: Card)
    requires w.username == ""
    ensures EditWishlist.PublicUrl(origin, w.username, w.customShortId, w.shortId, w.id) != origin + PublicPath(w)
  {
    var e := EditWishlist.PublicUrl(origin, w.username, w.customShortId, w.shortId, w.id);
    var d := origin + PublicPath(w);
    assert e[|origin| + 1] == 'w';
    assert d[|origin| + 1] == 's';
  }
}
