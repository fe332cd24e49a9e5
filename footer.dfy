/**
 * The site footer's links, built from the settings document it fetches (an empty
 * document until the fetch completes): one icon per enabled social network with a
 * handle, linked to the handle itself when it is a full URL and to the network's base
 * URL followed by the handle otherwise, and a WhatsApp icon when a phone is set.
 */
module Footer {
  import opened Text
  import opened Wrappers
  import SettingsRoute
  import InvoicesPage

  type Doc = SettingsRoute.Doc

  /** An entry of the footer's table of networks. */
  datatype SocialIcon = SocialIcon(key: string, baseUrl: string)

  /** The networks in display order, with their fixed base URLs; TikTok's ends in `@`. */
  const SocialIcons: seq<SocialIcon> := [
    SocialIcon("instagram", "https://instagram.com/"),
    SocialIcon("facebook", "https://facebook.com/"),
    SocialIcon("twitter", "https://x.com/"),
    SocialIcon("tiktok", "https://tiktok.com/@"),
    SocialIcon("snapchat", "https://snapchat.com/add/")
  ]

  /** A rendered icon: the network's key and the link's target. */
  datatype Link = Link(key: string, url: string)

  /** JavaScript truthiness of a settings value. */
  predicate IsTruthy(v: SettingsRoute.Value) {
    match v
    case Str(s) => s != ""
    case Flag(b) => b
    case Num(n) => n != 0.0
  }

  /** `settings[`${key}Enabled`]` is truthy; a missing field is not. */
  predicate Enabled(d: Doc, key: string) {
    key + "Enabled" in d && IsTruthy(d[key + "Enabled"])
  }

  /** `settings[key]` as a string; a missing field reads as the empty string. */
  function Handle(d: Doc, key: string): string {
    if key in d && d[key].Str? then d[key].s else ""
  }

  /** `if (!enabled || !handle) return null` */
  predicate Visible(d: Doc, icon: SocialIcon) {
    Enabled(d, icon.key) && Handle(d, icon.key) != ""
  }

  /** `handle.startsWith('http') ? handle : `${baseUrl}${handle}`` */
  function SocialUrl(handle: string, baseUrl: string): string {
    if StartsWith(handle, "http") then handle else baseUrl + handle
  }

  /** A full URL is kept as it is; any other handle follows the base URL, and the part
      after the base URL gives the handle back. */
  lemma SocialUrlShape(handle: string, baseUrl: string)
    ensures StartsWith(handle, "http") ==> SocialUrl(handle, baseUrl) == handle
    ensures !StartsWith(handle, "http") ==>
              && StartsWith(SocialUrl(handle, baseUrl), baseUrl)
              && SocialUrl(handle, baseUrl)[|baseUrl|..] == handle
  {
    if !StartsWith(handle, "http") {
      var url := baseUrl + handle;
      assert url[..|baseUrl|] == baseUrl;
      assert url[|baseUrl|..] == handle;
    }
  }

  /** The icons the footer renders, in table order. */
  function Links(d: Doc, icons: seq<SocialIcon>): (r: seq<Link>)
    ensures |r| <= |icons|
    ensures forall l :: l in r ==>
              exists ic :: ic in icons && Visible(d, ic) && l == Link(ic.key, SocialUrl(Handle(d, ic.key), ic.baseUrl))
    ensures forall ic :: ic in icons && Visible(d, ic) ==>
              Link(ic.key, SocialUrl(Handle(d, ic.key), ic.baseUrl)) in r
  {
    if icons == [] then []
    else
      var rest := Links(d, icons[1..]);
      var ic := icons[0];
      assert forall x :: x in icons[1..] ==> x in icons;
      assert forall x :: x in icons ==> x == ic || x in icons[1..];
      if Visible(d, ic) then [Link(ic.key, SocialUrl(Handle(d, ic.key), ic.baseUrl))] + rest else rest
  }

  /** An icon appears exactly when its network is enabled and has a handle. */
  lemma LinkShownIff(d: Doc, ic: SocialIcon)
    requires ic in SocialIcons
    ensures (exists l :: l in Links(d, SocialIcons) && l.key == ic.key) <==> Visible(d, ic)
  {
    var r := Links(d, SocialIcons);
    if Visible(d, ic) {
      assert Link(ic.key, SocialUrl(Handle(d, ic.key), ic.baseUrl)) in r;
    }
    forall l | l in r && l.key == ic.key ensures Visible(d, ic) {
      var jc :| jc in SocialIcons && Visible(d, jc) && l == Link(jc.key, SocialUrl(Handle(d, jc.key), jc.baseUrl));
      SocialIconsByKey(ic, jc);
    }
  }

  /** The table has one entry per key. */
  lemma SocialIconsByKey(a: SocialIcon, b: SocialIcon)
    requires a in SocialIcons && b in SocialIcons && a.key == b.key
    ensures a == b
  {
  }

  /** The phone as `settings.phone`; a missing field reads as the empty string. */
  function Phone(d: Doc): string {
    Handle(d, "phone")
  }

  /** `settings.phone ? `https://wa.me/${phone.replace(/[^0-9]/g, '')}` : '#'` */
  function WhatsAppLink(d: Doc): string {
    if Phone(d) != "" then InvoicesPage.WaBase + KeepDigits(Phone(d)) else "#"
  }

  /** The WhatsApp icon is rendered when a phone is set. */
  predicate ShowWhatsApp(d: Doc) { Phone(d) != "" }

  /** The icon is rendered exactly when the link is not the `#` placeholder, and then
      the link addresses the phone's digits, in order, and nothing else. */
  lemma WhatsAppLinkShape(d: Doc)
    ensures ShowWhatsApp(d) <==> WhatsAppLink(d) != "#"
    ensures ShowWhatsApp(d) ==>
              && StartsWith(WhatsAppLink(d), InvoicesPage.WaBase)
              && WhatsAppLink(d)[|InvoicesPage.WaBase|..] == KeepDigits(Phone(d))
              && AllDigits(WhatsAppLink(d)[|InvoicesPage.WaBase|..])
  {
    var base := InvoicesPage.WaBase;
    if ShowWhatsApp(d) {
      var link := base + KeepDigits(Phone(d));
      assert link[..|base|] == base;
      assert link[|base|..] == KeepDigits(Phone(d));
      assert link[0] == 'h';
    }
  }

  /** The footer does not exchange a local leading `0` for the country code `966`, so
      for such a number it addresses a different number from the invoice list's link. */
  lemma NoCountryCode(d: Doc)
    requires ShowWhatsApp(d) && StartsWith(KeepDigits(Phone(d)), "0")
    ensures WhatsAppLink(d)[|InvoicesPage.WaBase|..] != InvoicesPage.NormalizePhone(Some(Phone(d)))
  {
    WhatsAppLinkShape(d);
    InvoicesPage.NormalizePhoneCases(Some(Phone(d)));
  }

  /** The empty document shown before the fetch completes shows no icon, and the
      WhatsApp link is the placeholder. */
  lemma NothingShownBeforeFetch()
    ensures Links(map[], SocialIcons) == [] && WhatsAppLink(map[]) == "#"
  {
    NoneVisible(map[], SocialIcons);
  }

  /** Nor do the schema's defaults: every network is off and the phone is empty. */
  lemma NothingShownByDefault()
    ensures Links(SettingsRoute.Defaults(), SocialIcons) == []
    ensures WhatsAppLink(SettingsRoute.Defaults()) == "#" && !ShowWhatsApp(SettingsRoute.Defaults())
  {
    var d := SettingsRoute.Defaults();
    forall ic | ic in SocialIcons ensures !Visible(d, ic) {
      DefaultDisabled(ic);
    }
    NoneVisible(d, SocialIcons);
    DefaultPhone();
  }

  lemma DefaultPhone()
    ensures Phone(SettingsRoute.Defaults()) == ""
  {
    assert SettingsRoute.Defaults()["phone"] == SettingsRoute.Str("");
  }

  /** Every network is switched off in the schema's defaults. */
  lemma DefaultDisabled(ic: SocialIcon)
    requires ic in SocialIcons
    ensures !Enabled(SettingsRoute.Defaults(), ic.key)
  {
    var d := SettingsRoute.Defaults();
    var k := ic.key + "Enabled";
    if ic == SocialIcons[0] {
      assert k == "instagramEnabled";
    } else if ic == SocialIcons[1] {
      assert k == "facebookEnabled";
    } else if ic == SocialIcons[2] {
      assert k == "twitterEnabled";
    } else if ic == SocialIcons[3] {
      assert k == "tiktokEnabled";
    } else {
      assert k == "snapchatEnabled";
    }
  }

  lemma {:induction false} NoneVisible(d: Doc, icons: seq<SocialIcon>)
    requires forall ic :: ic in icons ==> !Visible(d, ic)
    ensures Links(d, icons) == []
  {
    if icons != [] {
      assert icons[0] in icons;
      assert forall x :: x in icons[1..] ==> x in icons;
      NoneVisible(d, icons[1..]);
    }
  }
}
