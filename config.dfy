/**
 * Logger options: the defaults, the overlay of the caller's options on
 * them (`Object.assign` twice) and how the logger reads one option.
 */
module Config {
  import opened Values
  import P = Palette

  /** The recognised option names. */
  datatype Key = UseColors | Color | ShowTimestamp | ShowLevel | Filename | AppendFile

  /** A JavaScript options object, restricted to the recognised keys. */
  type Options = map<Key, Value>

  /** `defaultOptions`; its colour is the target's `Colors.Default`. */
  function Defaults(target: P.Target): (d: Options)
    ensures forall k: Key :: k in d
    ensures Truthy(d[UseColors]) && Truthy(d[ShowTimestamp]) && Truthy(d[ShowLevel]) && Truthy(d[AppendFile])
    ensures !Truthy(d[Filename])
  {
    var d := map[UseColors := Bool(true), Color := P.ColorValue(target, P.Default), ShowTimestamp := Bool(true),
                 ShowLevel := Bool(true), Filename := Null, AppendFile := Bool(true)];
    assert forall k: Key :: k in d by {
      forall k: Key ensures k in d {
        assert k.UseColors? || k.Color? || k.ShowTimestamp? || k.ShowLevel? || k.Filename? || k.AppendFile?;
      }
    }
    d
  }

  /** `Object.assign(into, from)`: the keys of `from` are copied over those of `into`. */
  function Assign(into: Options, from: Options): (r: Options)
    ensures r.Keys == into.Keys + from.Keys
    ensures forall k :: k in from ==> r[k] == from[k]
    ensures forall k :: k in into && k !in from ==> r[k] == into[k]
  {
    into + from
  }

  /** The options a logger keeps: an empty object, then the defaults, then the caller's options. */
  function Resolve(target: P.Target, given: Options): (o: Options)
    ensures forall k: Key :: k in o
    ensures forall k: Key :: o[k] == if k in given then given[k] else Defaults(target)[k]
  {
    Assign(Assign(map[], Defaults(target)), given)
  }

  /** `if (options.k)`: a missing key reads as `undefined`, which is falsy. */
  predicate Flag(o: Options, k: Key) {
    k in o && Truthy(o[k])
  }

  /** `'' + options.k`: a missing key reads as `undefined`. */
  function Setting(o: Options, k: Key): string {
    if k in o then ToText(o[k]) else "undefined"
  }

  /**
   * With no options given, colours, timestamp and level are on, no file is
   * opened, appending is chosen and the category colour is `Colors.Default`.
   */
  lemma OmittedOptionsTakeDefaults(target: P.Target)
    ensures var o := Resolve(target, map[]);
      Flag(o, UseColors) && Flag(o, ShowTimestamp) && Flag(o, ShowLevel) && !Flag(o, Filename)
      && Flag(o, AppendFile) && o[Color] == P.ColorValue(target, P.Default)
  {
  }

  /**
   * A file is opened iff the caller gave a truthy filename; it is appended
   * to unless the caller gave a falsy `appendFile`.
   */
  lemma FileOptionsFollowCaller(target: P.Target, given: Options)
    ensures Flag(Resolve(target, given), Filename) <==> Filename in given && Truthy(given[Filename])
    ensures Flag(Resolve(target, given), AppendFile) <==> AppendFile !in given || Truthy(given[AppendFile])
  {
  }
}
