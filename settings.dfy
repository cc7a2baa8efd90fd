/** The in-memory `settings` object of the content script (content.js:5-20):
    six boolean options, all on by default, merged with what synced storage
    returns at start-up and overwritten key by key when storage changes. */
module Settings {
  import opened Wrappers

  /** Property name to value; `None` stands for JavaScript's `undefined`,
      which a storage change delivers as the new value of a removed key. */
  type Config = map<string, Option<bool>>

  const WheelZoom: string := "enableAltMouseWheelForVZoom"
  const DragZoom: string := "enableAltMouseDragForVZoom"
  const KeyZoom: string := "enableAltUpDownKeysForVZoom"
  const ArrowNav: string := "enableArrowsForChartNav"
  const BlockUpDown: string := "disableUpDownForSymbols"
  const BlockSpace: string := "disableSpaceForSymbols"

  /** The six option names, in the order of the initial object literal. */
  const Names: seq<string> := [WheelZoom, DragZoom, KeyZoom, ArrowNav, BlockUpDown, BlockSpace]

  const Defaults: Config :=
    map[WheelZoom := Some(true), DragZoom := Some(true), KeyZoom := Some(true),
        ArrowNav := Some(true), BlockUpDown := Some(true), BlockSpace := Some(true)]

  /** Whether `settings[name]` is truthy where a handler tests it. */
  predicate On(c: Config, name: string)
  {
    name in c && c[name] == Some(true)
  }

  /** `Object.assign(settings, data)` guarded by `if (data)`: every key the
      storage read returned is overwritten, every other property is kept. */
  function Merged(c: Config, data: Option<map<string, bool>>): (r: Config)
    ensures data.None? ==> r == c
    ensures data.Some? ==> r.Keys == c.Keys + data.value.Keys
    ensures data.Some? ==> forall k :: k in data.value ==> r[k] == Some(data.value[k])
    ensures forall k :: k in c && (data.None? || k !in data.value) ==> r[k] == c[k]
  {
    match data
    case None => c
    case Some(d) => c + map k | k in d :: Some(d[k])
  }

  /** One entry of a storage change notification: `[key, { newValue }]`. */
  datatype Change = Change(key: string, newValue: Option<bool>)

  function ChangedKeys(changes: seq<Change>): set<string>
  {
    set i | 0 <= i < |changes| :: changes[i].key
  }

  /** What `Object.entries` yields: no key twice. */
  predicate DistinctKeys(changes: seq<Change>)
  {
    forall i, j :: 0 <= i < j < |changes| ==> changes[i].key != changes[j].key
  }

  /** The settings after `settings[key] = newValue` for each entry in turn. */
  function Applied(c: Config, changes: seq<Change>): (r: Config)
    ensures r.Keys == c.Keys + ChangedKeys(changes)
    ensures forall k :: k in c && k !in ChangedKeys(changes) ==> r[k] == c[k]
    decreases |changes|
  {
    if changes == [] then c
    else
      var init := changes[..|changes| - 1];
      var last := changes[|changes| - 1];
      assert ChangedKeys(changes) == ChangedKeys(init) + {last.key} by {
        forall k | k in ChangedKeys(changes) ensures k in ChangedKeys(init) + {last.key} {
          var i :| 0 <= i < |changes| && changes[i].key == k;
          if i < |changes| - 1 { assert init[i] == changes[i]; }
        }
        forall k | k in ChangedKeys(init) ensures k in ChangedKeys(changes) {
          var i :| 0 <= i < |init| && init[i].key == k;
          assert changes[i] == init[i];
        }
      }
      Applied(c, init)[last.key := last.newValue]
  }

  /** With distinct keys, every changed key ends up holding its `newValue`. */
  lemma {:induction false} AppliedSetsEach(c: Config, changes: seq<Change>)
    requires DistinctKeys(changes)
    ensures forall i :: 0 <= i < |changes| ==>
      changes[i].key in Applied(c, changes) && Applied(c, changes)[changes[i].key] == changes[i].newValue
    decreases |changes|
  {
    if changes != [] {
      var init := changes[..|changes| - 1];
      var last := changes[|changes| - 1];
      AppliedSetsEach(c, init);
      forall i | 0 <= i < |changes|
        ensures changes[i].key in Applied(c, changes)
        ensures Applied(c, changes)[changes[i].key] == changes[i].newValue
      {
        if i < |changes| - 1 {
          assert init[i] == changes[i];
          assert changes[i].key != last.key;
        }
      }
    }
  }
}
