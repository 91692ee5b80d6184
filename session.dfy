/**
 * The conversation state the menu handlers read and write (`context.user_data`)
 * and the two handlers that validate an interval and a period against the
 * interval -> allowed-periods table.
 */
module Session {
  import opened Base

  /** `context.user_data`: one chat's conversation state, a dictionary of strings. */
  class UserData {
    var fields: map<string, string>

    constructor (initial: map<string, string>)
      ensures fields == initial
    {
      fields := initial;
    }
  }

  /** `dict.get(key)`. */
  function Get(fields: map<string, string>, key: string): Option<string> {
    if key in fields then Some(fields[key]) else None
  }

  /** The five asset classes the menus offer. */
  const AssetTypes: set<string> := {"commodities", "crypto", "forex", "indices", "stocks"}

  /**
   * Which behaviour a handler model follows: the code as it stands, or the
   * reply its messages are evidently written to show.
   */
  datatype Reading = AsWritten | AsIntended

  /** `fields` and `fields'` agree on every key outside `keys`. */
  ghost predicate SameOutside(fields: map<string, string>, fields': map<string, string>, keys: set<string>) {
    forall k :: k !in keys ==> Get(fields, k) == Get(fields', k)
  }
}

module IntervalMenu {
  import opened Base
  import opened Session

  const ValidIntervals: seq<string> := ["1d", "1h", "30m", "15m", "5m", "1m"]

  /** `period_options` of the interval handler. */
  const PeriodOptions: map<string, seq<string>> := map[
    "1m" := ["7d", "14d", "30d"],
    "5m" := ["7d", "14d", "30d"],
    "15m" := ["7d", "14d", "30d"],
    "30m" := ["7d", "14d", "30d"],
    "1h" := ["14d", "30d", "6mo"],
    "1d" := ["30d", "6mo", "1y"]
  ]

  const DefaultPeriods: seq<string> := ["30d", "6mo", "1y"]

  const Prefix: string := "interval_"

  predicate StartsWith(s: string, p: string) {
    |p| <= |s| && s[..|p|] == p
  }

  /** `s.replace(pat, "")`: every non-overlapping occurrence, scanning left to right, removed. */
  function RemoveAll(s: string, pat: string): (r: string)
    requires |pat| > 0
    ensures |r| <= |s|
    decreases |s|
  {
    if |s| < |pat| then s
    else if s[..|pat|] == pat then RemoveAll(s[|pat|..], pat)
    else [s[0]] + RemoveAll(s[1..], pat)
  }

  /** `pat` occurs in `t` starting at index `i`. */
  predicate OccursAt(t: string, pat: string, i: nat) {
    i + |pat| <= |t| && t[i..i + |pat|] == pat
  }

  /** A leading occurrence is removed and the rest is processed as if it stood alone. */
  lemma RemoveLeading(pat: string, t: string)
    requires |pat| > 0
    ensures RemoveAll(pat + t, pat) == RemoveAll(t, pat)
  {
    var s := pat + t;
    assert s[..|pat|] == pat;
    assert s[|pat|..] == t;
  }

  /** Text in which `pat` occurs nowhere is left as it is. */
  lemma {:induction false} RemoveAbsent(t: string, pat: string)
    requires |pat| > 0
    requires forall i: nat :: !OccursAt(t, pat, i)
    ensures RemoveAll(t, pat) == t
    decreases |t|
  {
    if |t| >= |pat| {
      assert !OccursAt(t, pat, 0);
      assert t[..|pat|] == t[0..0 + |pat|];
      forall i: nat
        ensures !OccursAt(t[1..], pat, i)
      {
        assert !OccursAt(t, pat, i + 1);
        if i + |pat| <= |t[1..]| {
          assert t[1..][i..i + |pat|] == t[i + 1..i + 1 + |pat|];
        }
      }
      RemoveAbsent(t[1..], pat);
      assert [t[0]] + t[1..] == t;
    }
  }

  /** Removing the prefix from "interval_" + t gives back t when t is shorter than the prefix. */
  lemma RemovePrefix(t: string)
    requires |t| < |Prefix|
    ensures StartsWith(Prefix + t, Prefix)
    ensures RemoveAll(Prefix + t, Prefix) == t
  {
    assert (Prefix + t)[..|Prefix|] == Prefix;
    RemoveLeading(Prefix, t);
    forall i: nat
      ensures !OccursAt(t, Prefix, i)
    {
    }
    RemoveAbsent(t, Prefix);
  }

  /** The periods offered for an interval, `period_options.get(interval, default)`. */
  function OfferedPeriods(interval: string): seq<string> {
    if interval in PeriodOptions then PeriodOptions[interval] else DefaultPeriods
  }

  /**
   * What the handler shows next. `KeyboardTypeError`: the period keyboard is
   * built by calling `get_period_keyboard` with the periods, but that function
   * takes no argument, so the call raises TypeError and nothing is shown.
   */
  datatype Reply = OfferPeriods(periods: seq<string>) | TickerMenu(assetType: string) | KeyboardTypeError | NoReply

  /**
   * `interval_callback` as a function of the old state and the callback data.
   * An accepted interval is stored either way; as written the reply is then
   * the TypeError, as intended the period menu for the interval.
   */
  function IntervalStep(fields: map<string, string>, data: string, reading: Reading): (map<string, string>, Reply) {
    if StartsWith(data, Prefix) then
      var interval := RemoveAll(data, Prefix);
      if interval in ValidIntervals then
        (fields["state" := "select_period"]["interval" := interval],
         if reading == AsWritten then KeyboardTypeError else OfferPeriods(OfferedPeriods(interval)))
      else (fields, NoReply)
    else if data == "back_to_period" then
      if "asset_type" in fields && fields["asset_type"] in AssetTypes then
        (fields["state" := "select_ticker"], TickerMenu(fields["asset_type"]))
      else (fields, NoReply)
    else (fields, NoReply)
  }

  method IntervalCallback(u: UserData, data: string) returns (reply: Reply)
    modifies u
    ensures (u.fields, reply) == IntervalStep(old(u.fields), data, AsWritten)
  {
    reply := NoReply;
    if StartsWith(data, Prefix) {
      var interval := RemoveAll(data, Prefix);
      if interval in ValidIntervals {
        u.fields := u.fields["state" := "select_period"];
        u.fields := u.fields["interval" := interval];
        reply := KeyboardTypeError;
      }
    } else if data == "back_to_period" {
      var assetType := Get(u.fields, "asset_type");
      if assetType.Some? && assetType.value in AssetTypes {
        u.fields := u.fields["state" := "select_ticker"];
        reply := TickerMenu(assetType.value);
      }
    }
  }

  /**
   * An interval is accepted iff the data starts with "interval_" and what is
   * left after removing every "interval_" is a valid interval. Acceptance sets
   * `state` to "select_period" and `interval` to the token and changes no
   * other key; as written the reply is then the TypeError, as intended the
   * token's row of the table (never the default). A rejected token leaves
   * the state unchanged and shows nothing.
   */
  lemma IntervalAcceptance(fields: map<string, string>, data: string, reading: Reading)
    requires StartsWith(data, Prefix)
    ensures var (fields', reply) := IntervalStep(fields, data, reading);
            var token := RemoveAll(data, Prefix);
            && (reply != NoReply <==> token in ValidIntervals)
            && (token in ValidIntervals ==>
                  && Get(fields', "state") == Some("select_period")
                  && Get(fields', "interval") == Some(token)
                  && SameOutside(fields, fields', {"state", "interval"})
                  && token in PeriodOptions
                  && (reading == AsWritten ==> reply == KeyboardTypeError)
                  && (reading == AsIntended ==> reply == OfferPeriods(PeriodOptions[token])))
            && (token !in ValidIntervals ==> fields' == fields && reply == NoReply)
  {
  }

  /** Every valid interval has a row of three periods, drawn from 7d, 14d, 30d, 6mo and 1y. */
  lemma PeriodTableShape(interval: string)
    requires interval in ValidIntervals
    ensures interval in PeriodOptions && |PeriodOptions[interval]| == 3
    ensures forall p :: p in PeriodOptions[interval] ==> p in {"7d", "14d", "30d", "6mo", "1y"}
  {
  }

  /** The rows of the table the intended reply offers, by interval. */
  lemma IntervalOffers()
    ensures IntervalStep(map[], Prefix + "1m", AsIntended).1 == OfferPeriods(["7d", "14d", "30d"])
    ensures IntervalStep(map[], Prefix + "5m", AsIntended).1 == OfferPeriods(["7d", "14d", "30d"])
    ensures IntervalStep(map[], Prefix + "15m", AsIntended).1 == OfferPeriods(["7d", "14d", "30d"])
    ensures IntervalStep(map[], Prefix + "30m", AsIntended).1 == OfferPeriods(["7d", "14d", "30d"])
    ensures IntervalStep(map[], Prefix + "1h", AsIntended).1 == OfferPeriods(["14d", "30d", "6mo"])
    ensures IntervalStep(map[], Prefix + "1d", AsIntended).1 == OfferPeriods(["30d", "6mo", "1y"])
  {
    RemovePrefix("1m");
    RemovePrefix("5m");
    RemovePrefix("15m");
    RemovePrefix("30m");
    RemovePrefix("1h");
    RemovePrefix("1d");
  }

  /** Every occurrence is removed, so a doubled prefix still yields a valid token. */
  lemma DoubledPrefixAccepted(fields: map<string, string>, reading: Reading)
    ensures IntervalStep(fields, Prefix + Prefix + "1d", reading).0 == fields["state" := "select_period"]["interval" := "1d"]
  {
    var s := Prefix + Prefix + "1d";
    assert s[..|Prefix|] == Prefix;
    assert s == Prefix + (Prefix + "1d");
    RemoveLeading(Prefix, Prefix + "1d");
    RemovePrefix("1d");
  }

  /**
   * Choosing 1h stores the interval and then, as written, shows nothing
   * (the keyboard call raises TypeError); as intended it offers 14d, 30d, 6mo.
   */
  lemma PeriodKeyboardCounterexample()
    ensures IntervalStep(map[], Prefix + "1h", AsWritten) ==
              (map["state" := "select_period", "interval" := "1h"], KeyboardTypeError)
    ensures IntervalStep(map[], Prefix + "1h", AsIntended) ==
              (map["state" := "select_period", "interval" := "1h"], OfferPeriods(["14d", "30d", "6mo"]))
  {
    RemovePrefix("1h");
  }

  /**
   * "back_to_period" returns to the ticker menu only when the stored asset
   * type is one of the five classes; otherwise nothing changes.
   */
  lemma BackToTickers(fields: map<string, string>, reading: Reading)
    ensures var (fields', reply) := IntervalStep(fields, "back_to_period", reading);
            && (reply.TickerMenu? <==> Get(fields, "asset_type").Some? && fields["asset_type"] in AssetTypes)
            && (reply.TickerMenu? ==> fields' == fields["state" := "select_ticker"])
            && (!reply.TickerMenu? ==> fields' == fields)
  {
    assert !StartsWith("back_to_period", Prefix) by {
      assert "back_to_period"[..|Prefix|] != Prefix by {
        assert "back_to_period"[0] != Prefix[0];
      }
    }
  }
}

module PeriodMenu {
  import opened Base
  import opened Session
  import IntervalMenu

  /** `period_options` of the period handler: its own copy of the table. */
  const PeriodOptions: map<string, seq<string>> := map[
    "1m" := ["7d", "14d", "30d"],
    "5m" := ["7d", "14d", "30d"],
    "15m" := ["7d", "14d", "30d"],
    "30m" := ["7d", "14d", "30d"],
    "1h" := ["14d", "30d", "6mo"],
    "1d" := ["30d", "6mo", "1y"]
  ]

  const DefaultPeriods: seq<string> := ["30d", "6mo", "1y"]

  /** `period_options.get(interval, default)`; a missing interval (None) is not a key. */
  function AllowedPeriods(interval: Option<string>): seq<string> {
    if interval.Some? && interval.value in PeriodOptions then PeriodOptions[interval.value]
    else DefaultPeriods
  }

  /** What the handler shows next: the period keyboard (with a back button) or the interval keyboard. */
  datatype Reply = PeriodKeyboard(periods: seq<string>) | IntervalKeyboard | NoReply

  /** `period_callback` as a function of the old state and the callback data. */
  function PeriodStep(fields: map<string, string>, data: string): (map<string, string>, Reply) {
    var valid := AllowedPeriods(Get(fields, "interval"));
    if data in valid then
      (fields["state" := "select_period"]["period" := data], PeriodKeyboard(valid))
    else if data == "back_button" then
      (fields["state" := "select_interval"], IntervalKeyboard)
    else (fields, NoReply)
  }

  method PeriodCallback(u: UserData, data: string) returns (reply: Reply)
    modifies u
    ensures (u.fields, reply) == PeriodStep(old(u.fields), data)
  {
    var interval := Get(u.fields, "interval");
    var valid := AllowedPeriods(interval);
    reply := NoReply;
    if data in valid {
      u.fields := u.fields["state" := "select_period"];
      u.fields := u.fields["period" := data];
      reply := PeriodKeyboard(valid);
    } else if data == "back_button" {
      u.fields := u.fields["state" := "select_interval"];
      reply := IntervalKeyboard;
    }
  }

  /** The two handlers carry the same table and the same default row. */
  lemma TablesAgree()
    ensures PeriodOptions == IntervalMenu.PeriodOptions
    ensures DefaultPeriods == IntervalMenu.DefaultPeriods
    ensures forall iv :: AllowedPeriods(Some(iv)) == IntervalMenu.OfferedPeriods(iv)
  {
  }

  /**
   * A period is accepted iff it is allowed for the stored interval; it then
   * sets `state` to "select_period" and `period` to the choice and changes
   * nothing else. "back_button" sets `state` to "select_interval" and leaves
   * everything else, the period and interval included, as it was. Any other
   * data changes nothing.
   */
  lemma PeriodAcceptance(fields: map<string, string>, data: string)
    ensures var (fields', reply) := PeriodStep(fields, data);
            var valid := AllowedPeriods(Get(fields, "interval"));
            && (reply.PeriodKeyboard? <==> data in valid)
            && (reply.PeriodKeyboard? ==>
                  && Get(fields', "state") == Some("select_period")
                  && Get(fields', "period") == Some(data)
                  && SameOutside(fields, fields', {"state", "period"}))
            && (data == "back_button" ==>
                  && Get(fields', "state") == Some("select_interval")
                  && SameOutside(fields, fields', {"state"}))
            && (data !in valid && data != "back_button" ==> fields' == fields && reply == NoReply)
  {
    assert "back_button" !in AllowedPeriods(Get(fields, "interval"));
  }

  /** A year of one-minute bars is refused and leaves the state as it was. */
  lemma YearOfMinutesRefused(fields: map<string, string>)
    requires Get(fields, "interval") == Some("1m")
    ensures PeriodStep(fields, "1y") == (fields, NoReply)
  {
  }

  /** Without a stored interval, or with one not in the table, the default row applies. */
  lemma UnknownIntervalDefault(fields: map<string, string>)
    requires Get(fields, "interval").None? || fields["interval"] !in PeriodOptions
    ensures AllowedPeriods(Get(fields, "interval")) == ["30d", "6mo", "1y"]
  {
  }
}
