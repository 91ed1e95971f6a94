/**
 * The client component that, on mount, requests initialization when the
 * handle is missing, and on every route change reports a page view with
 * a page name derived from the path.
 */
module MetaPixelInitializer {
  import opened Wrappers
  import opened JsValues
  import opened Browser
  import MetaPixel
  import opened PageName

  const DefaultPixelId: string := "748336294208189"

  /** The pixel identifier: `NEXT_PUBLIC_FACEBOOK_PIXEL_ID` when set and non-empty, else the built-in one. */
  function PixelId(env: map<string, string>): (id: string)
    ensures id != ""
    ensures "NEXT_PUBLIC_FACEBOOK_PIXEL_ID" in env && env["NEXT_PUBLIC_FACEBOOK_PIXEL_ID"] != "" ==>
      id == env["NEXT_PUBLIC_FACEBOOK_PIXEL_ID"]
    ensures "NEXT_PUBLIC_FACEBOOK_PIXEL_ID" !in env || env["NEXT_PUBLIC_FACEBOOK_PIXEL_ID"] == "" ==>
      id == DefaultPixelId
  {
    OrElse(Lookup(env, "NEXT_PUBLIC_FACEBOOK_PIXEL_ID"), DefaultPixelId)
  }

  /**
   * The mount effect: `initializeMetaPixel(pixelId)` is invoked only when
   * a window exists and the handle is absent. It sends nothing and
   * changes nothing either way.
   */
  method MountEffect(w: Window, env: map<string, string>) returns (initialized: bool)
    ensures initialized <==> w.hasWindow && !w.handlePresent
  {
    initialized := false;
    if w.hasWindow && !w.handlePresent {
      var log := MetaPixel.InitializeMetaPixel(w, PixelId(env));
      initialized := true;
    }
  }

  /**
   * The route-change effect for the current `pathname` and `href`: no
   * page view without a window and a handle; otherwise exactly one
   * `trackPageView(DerivedPageName(pathname), {page_url: href})`, whose
   * payload therefore carries `page_url` and the derived name.
   */
  method RouteChangeEffect(w: Window, pathname: string, href: string) returns (sent: bool)
    modifies w`calls
    ensures sent <==> w.Ready()
    ensures !w.Ready() ==> w.calls == old(w.calls)
    ensures w.Ready() ==>
      w.calls == old(w.calls) +
        [Call("track", "PageView",
              Some(map["page_url" := Str(href), "page_name" := Str(DerivedPageName(pathname))]))]
  {
    if !w.hasWindow || !w.handlePresent {
      return false;
    }
    var pageName := DerivedPageName(pathname);
    var log := MetaPixel.TrackPageView(w, Some(pageName), Some(map["page_url" := Str(href)]));
    sent := true;
  }
}
