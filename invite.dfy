/** supabase/functions/invite-handler/index.ts: the public referral link.
    It appends one click record to the `referral_clicks` log when a
    referrer is named, swallowing any logging failure, and always answers
    with a 302 (Found, section 15.4.3 of RFC 9110) to a destination chosen
    from the user agent. */
module Invite {
  import opened Wrappers
  import opened Text
  import opened Requests

  const APP_STORE_URL := "https://apps.apple.com/app/your-app-id"
  const PLAY_STORE_URL := "https://play.google.com/store/apps/details?id=com.dadadu.app"
  const FALLBACK_URL := "https://brosisus.com"
  const FOUND := 302

  /** The seven characters at k lower-case to "android". */
  predicate AndroidAt(userAgent: string, k: int) {
    0 <= k && k + 7 <= |userAgent| && Lower(userAgent[k..k + 7]) == "android"
  }

  /** `/android/i`: "android" in any letter case, that is, some window of
      seven characters lower-cases to "android". */
  predicate IsAndroid(userAgent: string): (b: bool)
    ensures b <==> exists k :: AndroidAt(userAgent, k)
  {
    AndroidWindow(userAgent);
    Contains(Lower(userAgent), "android")
  }

  /** Searching the lower-cased text is testing each seven-character window. */
  lemma AndroidWindow(userAgent: string)
    ensures Contains(Lower(userAgent), "android") <==>
      exists k :: AndroidAt(userAgent, k)
  {
    var l := Lower(userAgent);
    if Contains(l, "android") {
      var k :| 0 <= k <= |l| && "android" <= l[k..];
      LowerWindow(userAgent, k);
      assert AndroidAt(userAgent, k);
    }
    if exists k :: AndroidAt(userAgent, k) {
      var k :| AndroidAt(userAgent, k);
      LowerWindow(userAgent, k);
      assert "android" <= l[k..];
    }
  }

  /** Lower-casing commutes with taking a seven-character window. */
  lemma LowerWindow(userAgent: string, k: nat)
    requires k + 7 <= |userAgent|
    ensures Lower(userAgent[k..k + 7]) == Lower(userAgent)[k..k + 7]
    ensures Lower(userAgent)[k..][..7] == Lower(userAgent)[k..k + 7]
  {
  }

  /** `/iPad|iPhone|iPod/`: one of the three tokens, case-sensitively. */
  predicate IsIos(userAgent: string): (b: bool)
    ensures b <==> exists k :: (0 <= k <= |userAgent| &&
      ("iPad" <= userAgent[k..] || "iPhone" <= userAgent[k..] || "iPod" <= userAgent[k..]))
  {
    Contains(userAgent, "iPad") || Contains(userAgent, "iPhone") || Contains(userAgent, "iPod")
  }

  /** The redirect target for the `user-agent` header (`|| ''` when absent). */
  function Destination(userAgent: Option<string>): (url: string)
    ensures url in {PLAY_STORE_URL, APP_STORE_URL, FALLBACK_URL}
    ensures url == PLAY_STORE_URL <==> IsAndroid(userAgent.GetOr(""))
    ensures url == APP_STORE_URL <==> !IsAndroid(userAgent.GetOr("")) && IsIos(userAgent.GetOr(""))
    ensures url == FALLBACK_URL <==> !IsAndroid(userAgent.GetOr("")) && !IsIos(userAgent.GetOr(""))
    ensures userAgent.None? ==> url == FALLBACK_URL
  {
    var ua := userAgent.GetOr("");
    if IsAndroid(ua) then PLAY_STORE_URL
    else if IsIos(ua) then APP_STORE_URL
    else FALLBACK_URL
  }

  /** "Android" in any letter case wins, also over an iOS token. */
  lemma AndroidAnyCase(userAgent: string, word: string)
    requires Lower(word) == "android"
    requires Contains(userAgent, word)
    ensures Destination(Some(userAgent)) == PLAY_STORE_URL
  {
    ContainsLower(userAgent, word);
  }

  /** `x-forwarded-for?.split(',').shift()`: the text before the first
      comma, untrimmed; the whole value without a comma; absent when the
      header is. */
  function ClientIp(forwardedFor: Option<string>): (ip: Option<string>)
    ensures forwardedFor.None? <==> ip.None?
    ensures forwardedFor.Some? ==>
      && ip.value <= forwardedFor.value
      && ',' !in ip.value
      && (ip.value == forwardedFor.value || forwardedFor.value[|ip.value|] == ',')
  {
    match forwardedFor
    case None => None
    case Some(header) => Some(TakeUntil(header, ','))
  }

  /** The address is the first hop: whatever follows the first comma is
      dropped. */
  lemma ClientIpFirstHop(first: string, rest: string)
    requires ',' !in first
    ensures ClientIp(Some(first + "," + rest)) == Some(first)
  {
    TakeUntilConcat(first, rest, ',');
  }

  datatype Click = Click(referral_id: string, ip_address: Option<string>, user_agent: Option<string>)

  datatype Redirect = Redirect(status: int, location: string)

  class ReferralLog {
    var clicks: seq<Click>

    constructor (initial: seq<Click>)
      ensures clicks == initial
    {
      clicks := initial;
    }

    /** The handler for one request: `referredBy` is the `referred_by`
        query parameter, `forwardedFor` and `userAgent` the headers, and
        `insertOk` whether creating the client and inserting succeeded. */
    method HandleInvite(referredBy: Option<string>, forwardedFor: Option<string>,
                        userAgent: Option<string>, insertOk: bool)
      returns (resp: Redirect)
      modifies this
      ensures resp == Redirect(FOUND, Destination(userAgent))
      ensures TruthyString(referredBy) && insertOk ==>
        clicks == old(clicks) + [Click(referredBy.value, ClientIp(forwardedFor), userAgent)]
      ensures !(TruthyString(referredBy) && insertOk) ==> clicks == old(clicks)
    {
      if TruthyString(referredBy) {
        var ipAddress := ClientIp(forwardedFor);
        if insertOk {
          clicks := clicks + [Click(referredBy.value, ipAddress, userAgent)];
        }
      }
      resp := Redirect(FOUND, Destination(userAgent));
    }
  }
}
