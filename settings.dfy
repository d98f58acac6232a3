/**
 * The settings handler: six named sections of settings; `GET` answers one
 * section or all of them, and `PUT` merges new values into one section in
 * place with `Object.assign`.
 */
module Settings {
  import opened Http
  import opened Json

  /** The sections the settings object holds. */
  const Sections: set<string> := {"system", "notifications", "business", "users", "integrations", "backup"}

  /** `section && section in DEMO_SETTINGS`, on the settings object's own sections. */
  predicate Known(section: Option<string>)
  {
    Given(section) && section.value in Sections
  }

  /** `Object.assign(target, data)`: the keys of `data` overwrite those of `target`. */
  function Assign(target: Object, data: Object): (r: Object)
    ensures r.Keys == target.Keys + data.Keys
    ensures forall k <- data :: r[k] == data[k]
    ensures forall k <- target :: k !in data ==> r[k] == target[k]
  {
    target + data
  }

  /** Merging the same values twice is merging them once. */
  lemma AssignIdempotent(target: Object, data: Object)
    ensures Assign(Assign(target, data), data) == Assign(target, data)
  {
  }

  /** What a `PUT` leaves in the settings; a missing `data` is ignored by `Object.assign`. */
  function Update(settings: map<string, Object>, section: Option<string>, data: Option<Object>): (r: map<string, Object>)
    requires settings.Keys == Sections
    ensures r.Keys == Sections
    ensures forall s <- settings :: !Known(section) || s != section.value ==> r[s] == settings[s]
    ensures Known(section) ==>
      r[section.value] == Assign(settings[section.value], data.GetOr(map[]))
  {
    if Known(section) then
      settings[section.value := Assign(settings[section.value], data.GetOr(map[]))]
    else
      settings
  }

  /** Repeating a `PUT` changes nothing more. */
  lemma UpdateIdempotent(settings: map<string, Object>, section: Option<string>, data: Option<Object>)
    requires settings.Keys == Sections
    ensures Update(Update(settings, section, data), section, data) == Update(settings, section, data)
  {
    if Known(section) {
      AssignIdempotent(settings[section.value], data.GetOr(map[]));
    }
  }

  /** `PUT`s to two different sections do not interfere: either order gives the same settings. */
  lemma UpdatesOfDifferentSectionsCommute(settings: map<string, Object>, a: string, da: Object, b: string, db: Object)
    requires settings.Keys == Sections
    requires a != b
    ensures Update(Update(settings, Some(a), Some(da)), Some(b), Some(db))
         == Update(Update(settings, Some(b), Some(db)), Some(a), Some(da))
  {
  }

  /** The reply `{ success, message, [section]: values }`. */
  datatype Updated = Updated(success: bool, message: string, section: string, values: Object)

  /** The module-level settings object, one map of values per section. */
  class SettingsStore {
    var settings: map<string, Object>

    predicate Valid()
      reads this
    {
      settings.Keys == Sections
    }

    constructor (seed: map<string, Object>)
      requires seed.Keys == Sections
      ensures settings == seed && Valid()
    {
      settings := seed;
    }

    /** `GET`: only the named section, keyed by its name, or every section. */
    function Get(section: Option<string>): (r: map<string, Object>)
      reads this
      requires Valid()
      ensures Known(section) ==> r.Keys == {section.value} && r[section.value] == settings[section.value]
      ensures !Known(section) ==> r == settings
    {
      if Known(section) then map[section.value := settings[section.value]] else settings
    }

    /** `PUT`: merges `data` into the named section and echoes it, or refuses an unknown section. */
    method Put(section: Option<string>, data: Option<Object>) returns (r: Response<Updated>)
      requires Valid()
      modifies this
      ensures Valid()
      ensures settings == Update(old(settings), section, data)
      ensures !Known(section) ==> r == Error(400, "Invalid section") && settings == old(settings)
      ensures Known(section) ==>
        r == Ok(200, Updated(true, "Settings updated successfully", section.value, settings[section.value]))
    {
      settings := Update(settings, section, data);
      if Known(section) {
        r := Ok(200, Updated(true, "Settings updated successfully", section.value, settings[section.value]));
      } else {
        r := Error(400, "Invalid section");
      }
    }
  }
}
