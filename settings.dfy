/** The settings page: the signed-in user's row of the hosted
    `user_preferences` table, shown with defaults for missing fields, and
    partial updates merged into it by object spread. */
module Settings {
  import opened Wrappers
  import opened Seqs

  /** One key of a JSON object: `None` when the key is absent. Spreading an
      object copies only the keys it has, so a later present key wins. */
  function Over<T>(earlier: Option<T>, later: Option<T>): (r: Option<T>)
    ensures later.Some? ==> r == later
    ensures later.None? ==> r == earlier
  {
    if later.Some? then later else earlier
  }

  /** `chart_preferences`, as a partial object. */
  datatype ChartPrefs = ChartPrefs(timeframe: Option<string>, indicators: Option<seq<string>>)

  /** A `user_preferences` row, or a `Partial` of one: every key may be absent. */
  datatype Prefs = Prefs(
    id: Option<string>,
    user_id: Option<string>,
    favorite_symbols: Option<seq<string>>,
    chart_preferences: Option<ChartPrefs>,
    default_view: Option<string>,
    auto_refresh: Option<bool>,
    created_at: Option<string>,
    updated_at: Option<string>)

  /** `{}`, and also what `...null` contributes. */
  const Empty: Prefs := Prefs(None, None, None, None, None, None, None, None)

  /** `{ ...a, ...b }`: each key of `b` overrides, every other key keeps `a`'s value. */
  function Spread(a: Prefs, b: Prefs): (r: Prefs)
    ensures r.id == Over(a.id, b.id) && r.user_id == Over(a.user_id, b.user_id)
    ensures r.favorite_symbols == Over(a.favorite_symbols, b.favorite_symbols)
    ensures r.chart_preferences == Over(a.chart_preferences, b.chart_preferences)
    ensures r.default_view == Over(a.default_view, b.default_view)
    ensures r.auto_refresh == Over(a.auto_refresh, b.auto_refresh)
    ensures r.created_at == Over(a.created_at, b.created_at) && r.updated_at == Over(a.updated_at, b.updated_at)
  {
    Prefs(Over(a.id, b.id), Over(a.user_id, b.user_id), Over(a.favorite_symbols, b.favorite_symbols),
          Over(a.chart_preferences, b.chart_preferences), Over(a.default_view, b.default_view),
          Over(a.auto_refresh, b.auto_refresh), Over(a.created_at, b.created_at), Over(a.updated_at, b.updated_at))
  }

  /** `{}` is neutral on both sides, and two successive spreads are one
      spread of the combined updates. */
  lemma SpreadLaws(a: Prefs, b: Prefs, c: Prefs)
    ensures Spread(Empty, a) == a && Spread(a, Empty) == a
    ensures Spread(a, a) == a
    ensures Spread(Spread(a, b), c) == Spread(a, Spread(b, c))
  {
  }

  function OrEmpty(p: Option<Prefs>): Prefs
  {
    if p.Some? then p.value else Empty
  }

  /** The upsert payload `{ user_id, ...preferences, ...updates }`. */
  function Payload(uid: string, preferences: Option<Prefs>, updates: Prefs): Prefs
  {
    Spread(Spread(Prefs(None, Some(uid), None, None, None, None, None, None), OrEmpty(preferences)), updates)
  }

  /** The payload's `user_id` is the signed-in user's only when neither the
      stored row nor the update carries one: a stored `user_id` overrides it. */
  lemma {:induction false} PayloadUserId(uid: string, preferences: Option<Prefs>, updates: Prefs)
    ensures updates.user_id.Some? ==> Payload(uid, preferences, updates).user_id == updates.user_id
    ensures updates.user_id.None? && preferences.Some? && preferences.value.user_id.Some? ==>
              Payload(uid, preferences, updates).user_id == preferences.value.user_id
    ensures updates.user_id.None? && (preferences.None? || preferences.value.user_id.None?) ==>
              Payload(uid, preferences, updates).user_id == Some(uid)
  {
  }

  /** The payload carries every stored key the update does not override and every key of the update. */
  lemma PayloadKeepsStoredKeys(uid: string, p: Prefs, updates: Prefs)
    ensures var pl := Payload(uid, Some(p), updates);
            && pl.default_view == Over(p.default_view, updates.default_view)
            && pl.chart_preferences == Over(p.chart_preferences, updates.chart_preferences)
            && pl.auto_refresh == Over(p.auto_refresh, updates.auto_refresh)
            && pl.favorite_symbols == Over(p.favorite_symbols, updates.favorite_symbols)
  {
  }

  /** The local state after an accepted update: `prev ? { ...prev, ...updates } : null`. */
  function Merged(prev: Option<Prefs>, updates: Prefs): (r: Option<Prefs>)
    ensures r.None? <==> prev.None?
    ensures r.Some? ==> r.value == Spread(prev.value, updates)
  {
    if prev.Some? then Some(Spread(prev.value, updates)) else None
  }

  /** The local state after an accepted update is the row that was sent,
      except that the sent row also carries `user_id` when the stored one lacks it. */
  lemma {:induction false} LocalStateIsSentRow(uid: string, p: Prefs, updates: Prefs)
    ensures Payload(uid, Some(p), updates) ==
              Merged(Some(p), updates).value.(user_id := Over(Over(Some(uid), p.user_id), updates.user_id))
    ensures p.user_id.Some? ==> Merged(Some(p), updates) == Some(Payload(uid, Some(p), updates))
  {
  }

  /** An update with only `default_view` or only `auto_refresh` changes that key and no other. */
  lemma {:induction false} SingleKeyUpdates(p: Prefs, view: string, refresh: bool)
    ensures Merged(Some(p), Empty.(default_view := Some(view))) == Some(p.(default_view := Some(view)))
    ensures Merged(Some(p), Empty.(auto_refresh := Some(refresh))) == Some(p.(auto_refresh := Some(refresh)))
    ensures Merged(None, Empty.(default_view := Some(view))).None?
  {
  }

  /** The update sent by the timeframe selector: the existing chart
      preferences with `timeframe` replaced. */
  function TimeframeUpdate(preferences: Option<Prefs>, value: string): Prefs
  {
    var chart := if preferences.Some? && preferences.value.chart_preferences.Some?
                 then preferences.value.chart_preferences.value
                 else ChartPrefs(None, None);
    Prefs(None, None, None, Some(ChartPrefs(Some(value), chart.indicators)), None, None, None, None)
  }

  /** A timeframe change sets the timeframe, keeps the indicators and touches no other key. */
  lemma {:induction false} TimeframeChangeKeepsIndicators(p: Prefs, value: string)
    ensures var after := Merged(Some(p), TimeframeUpdate(Some(p), value)).value;
            && after.chart_preferences.Some?
            && after.chart_preferences.value.timeframe == Some(value)
            && after.chart_preferences.value.indicators ==
                 (if p.chart_preferences.Some? then p.chart_preferences.value.indicators else None)
            && after == p.(chart_preferences := after.chart_preferences)
  {
  }

  // ---- What the controls display: `x || default` ----

  function ShownView(preferences: Option<Prefs>): string
  {
    if preferences.Some? && preferences.value.default_view.Some? && preferences.value.default_view.value != ""
    then preferences.value.default_view.value else "stocks"
  }

  function ShownTimeframe(preferences: Option<Prefs>): string
  {
    if preferences.Some? && preferences.value.chart_preferences.Some? &&
       preferences.value.chart_preferences.value.timeframe.Some? &&
       preferences.value.chart_preferences.value.timeframe.value != ""
    then preferences.value.chart_preferences.value.timeframe.value else "1d"
  }

  function ShownAutoRefresh(preferences: Option<Prefs>): bool
  {
    preferences.Some? && preferences.value.auto_refresh == Some(true)
  }

  /** Without a row the controls show `stocks`, `1d` and off; a stored
      non-empty value is shown as stored, and an empty string falls back to
      the default. */
  lemma DisplayedDefaults(p: Prefs)
    ensures ShownView(None) == "stocks" && ShownTimeframe(None) == "1d" && !ShownAutoRefresh(None)
    ensures p.default_view.Some? && p.default_view.value != "" ==> ShownView(Some(p)) == p.default_view.value
    ensures p.default_view == Some("") ==> ShownView(Some(p)) == "stocks"
    ensures p.chart_preferences == Some(ChartPrefs(Some(""), None)) ==> ShownTimeframe(Some(p)) == "1d"
    ensures ShownAutoRefresh(Some(p)) <==> p.auto_refresh == Some(true)
  {
  }

  /** A choice made in the timeframe selector is what it shows after an accepted update. */
  lemma {:induction false} ChosenTimeframeIsShown(p: Prefs, value: string)
    requires value != ""
    ensures ShownTimeframe(Merged(Some(p), TimeframeUpdate(Some(p), value))) == value
  {
    TimeframeChangeKeepsIndicators(p, value);
  }

  predicate RowOf(row: Prefs, uid: string)
  {
    row.user_id == Some(uid)
  }

  /** `.eq('user_id', uid).single()`: the user's row when there is exactly
      one; no row or several is an error. */
  function SingleRow(table: seq<Prefs>, uid: string): (r: Option<Prefs>)
    ensures r.Some? <==> |Filter(row => RowOf(row, uid), table)| == 1
    ensures r.Some? ==> r.value in table && RowOf(r.value, uid)
  {
    var rows := Filter(row => RowOf(row, uid), table);
    if |rows| == 1 then Some(rows[0]) else None
  }

  class SettingsView {
    /** The signed-in user's id, `None` while there is no user. */
    var user: Option<string>
    var preferences: Option<Prefs>
    var loading: bool

    constructor ()
      ensures user.None? && preferences.None? && loading
    {
      user := None;
      preferences := None;
      loading := true;
    }

    /** `setUser` with the auth client's answer. */
    method SetUser(uid: Option<string>)
      modifies this`user
      ensures user == uid
    {
      user := uid;
    }

    /** `fetchPreferences`. Without a user it returns before the `finally`,
        so loading stays on. `table` is `None` when the request fails. */
    method FetchPreferences(table: Option<seq<Prefs>>)
      modifies this`preferences, this`loading
      ensures user.None? ==> preferences == old(preferences) && loading == old(loading)
      ensures user.Some? ==> !loading
      ensures user.Some? && table.Some? && SingleRow(table.value, user.value).Some? ==>
                preferences == SingleRow(table.value, user.value)
      ensures user.Some? && (table.None? || SingleRow(table.value, user.value).None?) ==>
                preferences == old(preferences)
    {
      if user.None? {
        return;
      }
      if table.Some? {
        var row := SingleRow(table.value, user.value);
        if row.Some? {
          preferences := row;
        }
      }
      loading := false;
    }

    /** `updatePreferences(updates)`: returns the upsert payload sent, if
        any. An accepted upsert merges the update into the local row (a
        missing row stays missing); a rejected one changes nothing. */
    method UpdatePreferences(updates: Prefs, accepted: bool) returns (sent: Option<Prefs>)
      modifies this`preferences
      ensures user.None? ==> sent.None? && preferences == old(preferences)
      ensures user.Some? ==> sent == Some(Payload(user.value, old(preferences), updates))
      ensures user.Some? && accepted ==> preferences == Merged(old(preferences), updates)
      ensures user.Some? && !accepted ==> preferences == old(preferences)
    {
      if user.None? {
        return None;
      }
      sent := Some(Payload(user.value, preferences, updates));
      if accepted {
        preferences := Merged(preferences, updates);
      }
    }
  }
}
