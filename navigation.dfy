/** `switchPage`: the navigation between the dashboard's pages. A page and
    a navigation link are known by their target id; the state is the set of
    pages and links that carry the `active` class and the text of the main
    header. */
module Navigation {
  import opened Text

  class Dashboard {
    /** The ids of the `.page` elements. */
    const pages: set<string>
    /** The `data-target` values of the `.nav-link` elements. */
    const links: set<string>
    var activePages: set<string>
    var activeLinks: set<string>
    var header: string

    ghost predicate Valid()
      reads this
    {
      activePages <= pages && activeLinks <= links
    }

    constructor (pages: set<string>, links: set<string>, header: string)
      ensures Valid()
      ensures this.pages == pages && this.links == links && this.header == header
      ensures activePages == {} && activeLinks == {}
    {
      this.pages := pages;
      this.links := links;
      this.header := header;
      activePages := {};
      activeLinks := {};
    }

    /** `switchPage(targetId)`. Every page loses `active`, then the page
        `targetId` gains it and the header becomes `targetId` with its first
        character upper-cased; then every link loses `active` and the link
        for `targetId` gains it. When the page or the link does not exist
        the lookup yields `null` and the call stops there with a TypeError
        (`ok` is false), leaving what it had already done. */
    method SwitchPage(targetId: string) returns (ok: bool)
      requires Valid()
      modifies this
      ensures Valid()
      ensures ok <==> targetId in pages && targetId in links
      ensures activePages == if targetId in pages then {targetId} else {}
      ensures header == if targetId in pages then Capitalize(targetId) else old(header)
      ensures activeLinks == if targetId !in pages then old(activeLinks)
                             else if targetId in links then {targetId} else {}
      ensures ok ==> |activePages| == 1 && |activeLinks| == 1
      ensures ok ==> |header| == |targetId| && (targetId != [] ==> header[1..] == targetId[1..])
    {
      activePages := {};
      if targetId !in pages {
        return false;
      }
      activePages := {targetId};
      header := Capitalize(targetId);
      activeLinks := {};
      if targetId !in links {
        return false;
      }
      activeLinks := {targetId};
      ok := true;
    }
  }

  /** Switching to a page twice in a row leaves the same state as
      switching once. */
  method SwitchTwice(d: Dashboard, targetId: string) returns (ok: bool)
    requires d.Valid()
    modifies d
    ensures d.Valid()
    ensures ok <==> targetId in d.pages && targetId in d.links
    ensures d.activePages == if targetId in d.pages then {targetId} else {}
    ensures d.header == if targetId in d.pages then Capitalize(targetId) else old(d.header)
    ensures d.activeLinks == if targetId !in d.pages then old(d.activeLinks)
                             else if targetId in d.links then {targetId} else {}
  {
    ok := d.SwitchPage(targetId);
    ok := d.SwitchPage(targetId);
  }
}
