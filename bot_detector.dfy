/** The server-side bot check applied to a request's user agent before an
    event is tracked. */
module BotDetection {
  import opened Php
  import UserAgents

  /** The nineteen substrings that mark a crawler, in declaration order. */
  const Patterns: seq<string> := [
    "bot", "crawl", "spider", "slurp", "mediapartners", "facebookexternalhit", "whatsapp",
    "telegram", "linkedinbot", "twitterbot", "pinterest", "slackbot", "discordbot", "googlebot",
    "bingbot", "yandexbot", "baiduspider", "duckduckbot", "applebot"]

  /** The patterns no other pattern occurs in. */
  const CorePatterns: seq<string> := [
    "bot", "crawl", "spider", "slurp", "mediapartners", "facebookexternalhit", "whatsapp",
    "telegram", "pinterest"]

  /** `isBot($ua)` for a given user agent: an empty one ('' or '0') is not a
      bot, otherwise its lower-cased form is searched for every pattern. */
  function IsBot(ua: string): (b: bool)
    ensures b <==> !EmptyStr(ua) && exists i :: 0 <= i < |Patterns| && Contains(Lower(ua), Patterns[i])
  {
    !EmptyStr(ua) && AnyContains(Lower(ua), Patterns)
  }

  /** `isBot($ua)` as the detector runs it: the emptiness test, then the
      loop over the patterns. */
  method Detect(ua: string) returns (b: bool)
    ensures b == IsBot(ua)
  {
    if EmptyStr(ua) {
      return false;
    }
    b := SearchKeywords(Lower(ua), Patterns);
  }

  /** A string that ends with `suffix` contains it. */
  lemma ContainsSuffix(s: string, suffix: string)
    requires |suffix| <= |s| && s[|s| - |suffix|..] == suffix
    ensures Contains(s, suffix)
  {
    assert OccursAt(s, suffix, |s| - |suffix|);
    ContainsAt(s, suffix);
  }

  /** Each pattern outside the core ends with "bot" or "spider". */
  lemma NonCoreEndings(i: nat)
    requires i < |Patterns| && Patterns[i] !in CorePatterns
    ensures Contains(Patterns[i], "bot") || Contains(Patterns[i], "spider")
  {
    var p := Patterns[i];
    if p == "baiduspider" {
      assert p[|p| - 6..] == "spider";
      ContainsSuffix(p, "spider");
    } else {
      assert p[|p| - 3..] == "bot";
      ContainsSuffix(p, "bot");
    }
  }

  /** The `*bot` patterns and "baiduspider" are redundant: the nine core
      patterns alone decide `isBot`. */
  lemma CoreDecides(ua: string)
    ensures IsBot(ua) <==> !EmptyStr(ua) && AnyContains(Lower(ua), CorePatterns)
  {
    var s := Lower(ua);
    if IsBot(ua) {
      var i :| 0 <= i < |Patterns| && Contains(s, Patterns[i]);
      if Patterns[i] in CorePatterns {
        var j :| 0 <= j < |CorePatterns| && CorePatterns[j] == Patterns[i];
      } else {
        NonCoreEndings(i);
        if Contains(Patterns[i], "bot") {
          ContainsTransitive(s, Patterns[i], "bot");
          assert CorePatterns[0] == "bot";
        } else {
          ContainsTransitive(s, Patterns[i], "spider");
          assert CorePatterns[2] == "spider";
        }
      }
    }
    if !EmptyStr(ua) && AnyContains(s, CorePatterns) {
      var j :| 0 <= j < |CorePatterns| && Contains(s, CorePatterns[j]);
      assert CorePatterns[j] == Patterns[if j < 8 then j else 10];
    }
  }

  /** Any user agent containing "bot" in any case is a bot. */
  lemma AnyBotIsBot(ua: string)
    requires Contains(Lower(ua), "bot")
    ensures IsBot(ua)
  {
    assert Patterns[0] == "bot";
  }

  /** Detection ignores ASCII case. */
  lemma CaseInsensitive(ua: string)
    ensures IsBot(Upper(ua)) == IsBot(ua)
  {
    LowerOfUpper(ua);
    if EmptyStr(Upper(ua)) != EmptyStr(ua) {
      assert |ua| <= 1;
      assert Upper(ua) == ua;
    }
  }

  /** The value object's shorter list is contained in this one: a user agent
      it flags is flagged here too. */
  lemma UserAgentBotIsBot(ua: string)
    requires !EmptyStr(ua) && UserAgents.UserAgent(ua).IsBot()
    ensures IsBot(ua)
  {
    var i :| 0 <= i < |UserAgents.BotPatterns| && Contains(Lower(ua), UserAgents.BotPatterns[i]);
    assert UserAgents.BotPatterns[i] == Patterns[i];
  }
}
