/** The preferences state of context/preferences-context.tsx: updatePreferences sends a
    partial update to the server and, only once that call has succeeded, merges it into
    the `preferences` state cell. */
module PreferencesContext {
  import opened Js
  import opened Records

  /** `Partial<Preferences>`: None is a field the update leaves out. */
  datatype PreferencesPatch = PreferencesPatch(
    id: Option<string>,
    userId: Option<string>,
    currency: Option<string>,
    numberFormat: Option<NumberFormat>,
    decimalLength: Option<int>,
    trackSources: Option<bool>,
    createdAt: Option<string>,
    updatedAt: Option<string>)

  const EmptyPatch := PreferencesPatch(None, None, None, None, None, None, None, None)

  /** `{ ...prev, ...updates }`: every field the update carries overrides the old one. */
  function Merge(prev: Preferences, updates: PreferencesPatch): Preferences {
    Preferences(
      updates.id.GetOr(prev.id),
      updates.userId.GetOr(prev.userId),
      updates.currency.GetOr(prev.currency),
      updates.numberFormat.GetOr(prev.numberFormat),
      updates.decimalLength.GetOr(prev.decimalLength),
      updates.trackSources.GetOr(prev.trackSources),
      updates.createdAt.GetOr(prev.createdAt),
      updates.updatedAt.GetOr(prev.updatedAt))
  }

  /** `{ ...first, ...second }` of two updates: a field of the second wins where present. */
  function Then(first: PreferencesPatch, second: PreferencesPatch): PreferencesPatch {
    PreferencesPatch(
      if second.id.Some? then second.id else first.id,
      if second.userId.Some? then second.userId else first.userId,
      if second.currency.Some? then second.currency else first.currency,
      if second.numberFormat.Some? then second.numberFormat else first.numberFormat,
      if second.decimalLength.Some? then second.decimalLength else first.decimalLength,
      if second.trackSources.Some? then second.trackSources else first.trackSources,
      if second.createdAt.Some? then second.createdAt else first.createdAt,
      if second.updatedAt.Some? then second.updatedAt else first.updatedAt)
  }

  /** Two successive updates leave the same preferences as one update carrying both,
      the later one winning on the fields they share. */
  lemma MergeComposes(prev: Preferences, first: PreferencesPatch, second: PreferencesPatch)
    ensures Merge(Merge(prev, first), second) == Merge(prev, Then(first, second))
  {
  }

  lemma MergeEmpty(prev: Preferences)
    ensures Merge(prev, EmptyPatch) == prev
  {
  }

  lemma MergeIdempotent(prev: Preferences, updates: PreferencesPatch)
    ensures Merge(Merge(prev, updates), updates) == Merge(prev, updates)
  {
  }

  /** The `preferences` state cell. */
  class PreferencesStore {
    var preferences: Preferences

    constructor (initialPreferences: Preferences)
      ensures preferences == initialPreferences
    {
      preferences := initialPreferences;
    }

    /** updatePreferences: `remote` is how `updatePreferencesAction(updates)` ends. The
        merge happens only after it resolves; an error leaves the state alone and is
        thrown again to the caller. */
    method UpdatePreferences(updates: PreferencesPatch, remote: Completion) returns (result: Completion)
      modifies this
      ensures remote.Normal? ==> preferences == Merge(old(preferences), updates)
      ensures remote.Threw? ==> preferences == old(preferences)
      ensures result == remote
    {
      if remote.Normal? {
        preferences := Merge(preferences, updates);
        result := Normal;
      } else {
        result := remote;
      }
    }
  }
}
