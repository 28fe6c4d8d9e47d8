/**
 * The game configuration (config.py): a tree of dictionaries whose leaves
 * are JSON scalars or lists, read and written through dotted key paths
 * such as "graphics.resolution", and merged over the built-in defaults
 * when a saved file is loaded.
 */
module Config {
  import opened Wrappers

  /** A JSON value that is not an object. */
  datatype Atom = Bool(b: bool) | Int(i: int) | Real(r: real) | Str(s: string) | List(items: seq<Atom>)

  /** A configuration node: a leaf, or a dictionary of named children. */
  datatype Value = Leaf(atom: Atom) | Dict(entries: map<string, Value>)

  // ---------------------------------------------------------------------------
  // Key paths: `key_path.split('.')`
  // ---------------------------------------------------------------------------

  /** Python's `s.split(sep)`: the pieces between separators, empty ones included. */
  function Split(s: string, sep: char): (parts: seq<string>)
    ensures |parts| >= 1
    ensures forall i :: 0 <= i < |parts| ==> sep !in parts[i]
  {
    if s == [] then [""]
    else
      var rest := Split(s[1..], sep);
      if s[0] == sep then [""] + rest else [[s[0]] + rest[0]] + rest[1..]
  }

  /** `sep.join(parts)`. */
  function Join(parts: seq<string>, sep: char): string
    requires |parts| >= 1
  {
    if |parts| == 1 then parts[0] else parts[0] + [sep] + Join(parts[1..], sep)
  }

  /** Joining the pieces of a split gives back the string. */
  lemma {:induction false} JoinSplit(s: string, sep: char)
    ensures Join(Split(s, sep), sep) == s
  {
    if s != [] {
      var rest := Split(s[1..], sep);
      JoinSplit(s[1..], sep);
      if s[0] == sep {
        assert Split(s, sep) == [""] + rest;
        assert s == [s[0]] + s[1..];
      } else if |rest| == 1 {
        assert Split(s, sep) == [[s[0]] + rest[0]];
        assert s == [s[0]] + s[1..];
      } else {
        var parts := Split(s, sep);
        assert parts == [[s[0]] + rest[0]] + rest[1..];
        assert parts[1..] == rest[1..];
        assert s == [s[0]] + s[1..];
      }
    }
  }

  /** Splitting a joined list of separator-free keys gives back the keys. */
  lemma {:induction false} SplitJoin(parts: seq<string>, sep: char)
    requires |parts| >= 1
    requires forall i :: 0 <= i < |parts| ==> sep !in parts[i]
    ensures Split(Join(parts, sep), sep) == parts
    decreases |parts|, |parts[0]|
  {
    var p := parts[0];
    if p == [] {
      if |parts| > 1 {
        var tail := Join(parts[1..], sep);
        assert Join(parts, sep) == [sep] + tail;
        assert ([sep] + tail)[1..] == tail;
        SplitJoin(parts[1..], sep);
        assert parts == [""] + parts[1..];
      }
    } else {
      var parts' := [p[1..]] + parts[1..];
      assert parts'[1..] == parts[1..];
      assert forall i :: 0 <= i < |parts'| ==> sep !in parts'[i] by {
        assert forall i :: 1 <= i < |parts'| ==> parts'[i] == parts[i];
      }
      SplitJoin(parts', sep);
      var s := Join(parts, sep);
      assert s == [p[0]] + Join(parts', sep) by {
        if |parts| == 1 {
          assert p == [p[0]] + p[1..];
        } else {
          assert p + [sep] + Join(parts[1..], sep) == [p[0]] + (p[1..] + [sep] + Join(parts[1..], sep));
        }
      }
      assert s[0] == p[0] && s[1..] == Join(parts', sep);
      assert p[0] != sep by { assert p[0] in p; }
      assert p == [p[0]] + p[1..];
    }
  }

  // ---------------------------------------------------------------------------
  // Reading: `get`
  // ---------------------------------------------------------------------------

  /** Descends along `path`; `None` when a key is missing or a leaf is indexed. */
  function Lookup(v: Value, path: seq<string>): Option<Value>
  {
    if path == [] then Some(v)
    else match v
      case Leaf(_) => None
      case Dict(m) => if path[0] in m then Lookup(m[path[0]], path[1..]) else None
  }

  // ---------------------------------------------------------------------------
  // Merging: `merge_configs`
  // ---------------------------------------------------------------------------

  /**
   * `merge_configs(default, user)`: every key of either side; a key on both
   * sides whose two values are dictionaries is merged recursively, otherwise
   * the user's value wins; keys only in `default` keep their value.
   */
  function Merge(default: map<string, Value>, user: map<string, Value>): (merged: map<string, Value>)
    ensures merged.Keys == default.Keys + user.Keys
    decreases Dict(user)
  {
    map k | k in default.Keys + user.Keys ::
      if k in user then
        if k in default && default[k].Dict? && user[k].Dict? then
          assert user[k] in user.Values;
          Dict(Merge(default[k].entries, user[k].entries))
        else user[k]
      else default[k]
  }

  /** Merging nothing over a configuration leaves it as it is. */
  lemma MergeEmpty(default: map<string, Value>)
    ensures Merge(default, map[]) == default
  {
  }

  /** Merging over nothing gives the user's configuration. */
  lemma MergeOverEmpty(user: map<string, Value>)
    ensures Merge(map[], user) == user
  {
  }

  /** Every leaf of the user's tree reads back, at the same path, from the merged tree. */
  lemma {:induction false} MergeKeepsUserLeaves(default: map<string, Value>, user: map<string, Value>, path: seq<string>)
    requires Lookup(Dict(user), path).Some? && Lookup(Dict(user), path).value.Leaf?
    ensures Lookup(Dict(Merge(default, user)), path) == Lookup(Dict(user), path)
    decreases |path|
  {
    var k := path[0];
    var merged := Merge(default, user);
    if k in default && default[k].Dict? && user[k].Dict? {
      if |path| > 1 {
        MergeKeepsUserLeaves(default[k].entries, user[k].entries, path[1..]);
      }
    }
  }

  /**
   * The user's tree does not reach `path`: it follows `path` through
   * dictionaries only and stops at a key it lacks.
   */
  predicate Unreached(user: map<string, Value>, path: seq<string>)
    decreases |path|
  {
    path != [] &&
    (path[0] !in user || (user[path[0]].Dict? && Unreached(user[path[0]].entries, path[1..])))
  }

  /** A path the user's tree does not reach is missing from it. */
  lemma {:induction false} UnreachedIsMissing(user: map<string, Value>, path: seq<string>)
    requires Unreached(user, path)
    ensures Lookup(Dict(user), path) == None
    decreases |path|
  {
    if path[0] in user {
      UnreachedIsMissing(user[path[0]].entries, path[1..]);
    }
  }

  /** A path the user's tree does not reach, at any depth, reads as in the defaults. */
  lemma {:induction false} MergeKeepsDefaults(default: map<string, Value>, user: map<string, Value>, path: seq<string>)
    requires Unreached(user, path)
    ensures Lookup(Dict(Merge(default, user)), path) == Lookup(Dict(default), path)
    decreases |path|
  {
    var k := path[0];
    if k in user {
      if k in default && default[k].Dict? {
        MergeKeepsDefaults(default[k].entries, user[k].entries, path[1..]);
      } else {
        UnreachedIsMissing(user[k].entries, path[1..]);
      }
    }
  }

  // ---------------------------------------------------------------------------
  // Writing: `set`
  // ---------------------------------------------------------------------------

  /**
   * `set` on the dictionary `m`: walks `path`, creating an empty dictionary
   * for every missing intermediate key, and stores `x` under the last key.
   * Reaching a leaf before the last key is the `TypeError` Python raises;
   * nothing has been changed by then.
   */
  function SetPath(m: map<string, Value>, path: seq<string>, x: Value): (r: Option<map<string, Value>>)
    requires |path| >= 1
    ensures r.Some? ==> r.value.Keys == m.Keys + {path[0]}
    decreases |path|
  {
    if |path| == 1 then Some(m[path[0] := x])
    else
      var child := if path[0] in m then m[path[0]] else Dict(map[]);
      match child
      case Leaf(_) => None
      case Dict(cm) =>
        match SetPath(cm, path[1..], x)
        case None => None
        case Some(cm') => Some(m[path[0] := Dict(cm')])
  }

  /** No proper prefix of `path` leads to a leaf. */
  predicate OpenPath(m: map<string, Value>, path: seq<string>)
  {
    forall i :: 1 <= i < |path| ==> !(Lookup(Dict(m), path[..i]).Some? && Lookup(Dict(m), path[..i]).value.Leaf?)
  }

  /** `set` fails exactly when an existing intermediate key holds a leaf. */
  lemma {:induction false} SetPathSucceeds(m: map<string, Value>, path: seq<string>, x: Value)
    requires |path| >= 1
    ensures SetPath(m, path, x).Some? <==> OpenPath(m, path)
    decreases |path|
  {
    if |path| > 1 {
      var k := path[0];
      assert path[..1] == [k];
      var child := if k in m then m[k] else Dict(map[]);
      if child.Dict? {
        SetPathSucceeds(child.entries, path[1..], x);
        forall i | 1 <= i < |path| - 1
          ensures Lookup(Dict(m), path[..i + 1]) == Lookup(child, path[1..][..i])
        {
          assert path[..i + 1][0] == k && path[..i + 1][1..] == path[1..][..i];
          if k !in m {
            assert Lookup(Dict(m), path[..i + 1]) == None;
            LookupEmpty(path[1..][..i]);
          }
        }
        if OpenPath(child.entries, path[1..]) {
          forall i | 1 <= i < |path|
            ensures !(Lookup(Dict(m), path[..i]).Some? && Lookup(Dict(m), path[..i]).value.Leaf?)
          {
            if i > 1 {
              assert Lookup(Dict(m), path[..i]) == Lookup(child, path[1..][..i - 1]);
            }
          }
        } else {
          var j :| 1 <= j < |path[1..]| &&
            Lookup(Dict(child.entries), path[1..][..j]).Some? && Lookup(Dict(child.entries), path[1..][..j]).value.Leaf?;
          assert Lookup(Dict(m), path[..j + 1]) == Lookup(child, path[1..][..j]);
        }
      } else {
        assert Lookup(Dict(m), path[..1]) == Some(child);
      }
    }
  }

  /** Below a missing key every lookup fails. */
  lemma LookupEmpty(path: seq<string>)
    requires path != []
    ensures Lookup(Dict(map[]), path) == None
  {
  }

  /** After `set(p, x)`, `get(p)` gives `x`. */
  lemma {:induction false} GetAfterSet(m: map<string, Value>, path: seq<string>, x: Value)
    requires |path| >= 1 && SetPath(m, path, x).Some?
    ensures Lookup(Dict(SetPath(m, path, x).value), path) == Some(x)
    decreases |path|
  {
    if |path| > 1 {
      var child := if path[0] in m then m[path[0]] else Dict(map[]);
      GetAfterSet(child.entries, path[1..], x);
    }
  }

  /** `q` leaves `p` at some position both paths have. */
  predicate Diverge(p: seq<string>, q: seq<string>)
  {
    exists i :: 0 <= i < |p| && i < |q| && p[i] != q[i]
  }

  /** `set(p, x)` changes nothing on a path that leaves `p`. */
  lemma {:induction false} SetLeavesOtherPaths(m: map<string, Value>, p: seq<string>, x: Value, q: seq<string>)
    requires |p| >= 1 && SetPath(m, p, x).Some? && Diverge(p, q)
    ensures Lookup(Dict(SetPath(m, p, x).value), q) == Lookup(Dict(m), q)
    decreases |p|
  {
    var m' := SetPath(m, p, x).value;
    if q[0] != p[0] {
      assert Lookup(Dict(m'), q) == (if q[0] in m' then Lookup(m'[q[0]], q[1..]) else None);
    } else {
      var i :| 0 <= i < |p| && i < |q| && p[i] != q[i];
      assert i > 0;
      assert p[1..][i - 1] != q[1..][i - 1];
      var child := if p[0] in m then m[p[0]] else Dict(map[]);
      SetLeavesOtherPaths(child.entries, p[1..], x, q[1..]);
      if p[0] !in m && |q| > 1 {
        LookupEmpty(q[1..]);
      }
    }
  }

  // ---------------------------------------------------------------------------
  // The configuration object
  // ---------------------------------------------------------------------------

  /** The built-in configuration. */
  function Defaults(): (d: map<string, Value>)
    ensures d.Keys == {"graphics", "audio", "controls", "gameplay", "ai", "ui", "save"}
    ensures forall k :: k in d ==> d[k].Dict?
  {
    map[
      "graphics" := Dict(map[
        "resolution" := Leaf(List([Int(1280), Int(720)])),
        "fullscreen" := Leaf(Bool(false)),
        "vsync" := Leaf(Bool(true)),
        "fps_limit" := Leaf(Int(60)),
        "render_distance" := Leaf(Int(100)),
        "shadows" := Leaf(Bool(true)),
        "antialiasing" := Leaf(Bool(true))]),
      "audio" := Dict(map[
        "master_volume" := Leaf(Real(1.0)),
        "music_volume" := Leaf(Real(0.7)),
        "sfx_volume" := Leaf(Real(0.8)),
        "voice_volume" := Leaf(Real(0.9)),
        "enable_audio" := Leaf(Bool(true))]),
      "controls" := Dict(map[
        "mouse_sensitivity" := Leaf(Real(1.0)),
        "invert_mouse_y" := Leaf(Bool(false)),
        "keyboard_layout" := Leaf(Str("qwerty")),
        "gamepad_enabled" := Leaf(Bool(false))]),
      "gameplay" := Dict(map[
        "difficulty" := Leaf(Str("normal")),
        "auto_save" := Leaf(Bool(true)),
        "auto_save_interval" := Leaf(Int(300)),
        "show_hints" := Leaf(Bool(true)),
        "show_minimap" := Leaf(Bool(true)),
        "show_health_bars" := Leaf(Bool(true)),
        "show_damage_numbers" := Leaf(Bool(true))]),
      "ai" := Dict(map[
        "enemy_aggression" := Leaf(Real(1.0)),
        "enemy_detection_range" := Leaf(Real(1.0)),
        "enemy_speed" := Leaf(Real(1.0)),
        "npc_interaction_range" := Leaf(Real(3.0)),
        "enemy_respawn_time" := Leaf(Int(60))]),
      "ui" := Dict(map[
        "ui_scale" := Leaf(Real(1.0)),
        "show_fps" := Leaf(Bool(true)),
        "show_coordinates" := Leaf(Bool(false)),
        "show_debug_info" := Leaf(Bool(false)),
        "language" := Leaf(Str("french"))]),
      "save" := Dict(map[
        "max_save_slots" := Leaf(Int(10)),
        "auto_backup" := Leaf(Bool(true)),
        "backup_interval" := Leaf(Int(24)),
        "save_directory" := Leaf(Str("saves/"))])]
  }

  /** Any key inside a built-in section can be set: every section is a dictionary. */
  lemma SetInSection(section: string, key: string, x: Value)
    requires section in Defaults()
    ensures SetPath(Defaults(), [section, key], x).Some?
  {
  }

  class GameConfig {
    const defaultConfig: map<string, Value>
    var config: map<string, Value>

    /**
     * `__init__` with `load_config`: `saved` is the dictionary read from the
     * configuration file, `None` when there is no file or it cannot be read;
     * a saved configuration is merged over the defaults.
     */
    constructor (saved: Option<map<string, Value>>)
      ensures defaultConfig == Defaults()
      ensures saved.None? ==> config == Defaults()
      ensures saved.Some? ==> config == Merge(Defaults(), saved.value)
    {
      defaultConfig := Defaults();
      config := if saved.Some? then Merge(Defaults(), saved.value) else Defaults();
    }

    /** `get(key_path, default)`. */
    function Get(keyPath: string, default: Value): (r: Value)
      reads this
      ensures Lookup(Dict(config), Split(keyPath, '.')).Some? ==> r == Lookup(Dict(config), Split(keyPath, '.')).value
      ensures Lookup(Dict(config), Split(keyPath, '.')).None? ==> r == default
    {
      match Lookup(Dict(config), Split(keyPath, '.'))
      case Some(v) => v
      case None => default
    }

    /** `get_graphics_settings` and its six siblings: a whole section, `{}` when absent. */
    function Settings(section: string): (r: Value)
      reads this
      requires '.' !in section
      ensures section in config ==> r == config[section]
      ensures section !in config ==> r == Dict(map[])
    {
      assert Split(section, '.') == [section] by { SplitJoin([section], '.'); }
      assert [section][1..] == [];
      assert Lookup(Dict(config), [section]) == if section in config then Some(config[section]) else None;
      Get(section, Dict(map[]))
    }

    /**
     * `set(key_path, value)`: `false` stands for the `TypeError` raised when
     * an existing intermediate key holds a leaf, in which case nothing changes.
     */
    method Set(keyPath: string, value: Value) returns (ok: bool)
      modifies this
      ensures ok <==> OpenPath(old(config), Split(keyPath, '.'))
      ensures ok ==> Get(keyPath, Leaf(Bool(false))) == value
      ensures ok ==> SetPath(old(config), Split(keyPath, '.'), value) == Some(config)
      ensures !ok ==> config == old(config)
    {
      var keys := Split(keyPath, '.');
      SetPathSucceeds(config, keys, value);
      match SetPath(config, keys, value)
      case None =>
        ok := false;
      case Some(c) =>
        GetAfterSet(config, keys, value);
        config := c;
        ok := true;
    }

    /** `reset_to_defaults`. */
    method ResetToDefaults()
      modifies this
      ensures config == defaultConfig
    {
      config := defaultConfig;
    }
  }
}
