/** SettingsUtil.hpp: settings kept in two places, written atomically, with the newest file
    winning on load. */
module SettingsStore {
  import opened Wrappers
  import opened Numbers

  type Content = seq<nat>

  const CONFIG_BUFFER_SIZE: nat := 4096

  datatype Place = Portable | Fallback

  datatype File = File(content: Content, time: nat)

  /** The two files, whether there is a fallback path at all, and the path last used. */
  datatype Storage = Storage(portable: Option<File>, fallback: Option<File>, hasFallback: bool, active: Option<Place>)
  {
    function At(p: Place): Option<File> { if p.Portable? then portable else fallback }

    function Replace(p: Place, file: File): Storage {
      if p.Portable? then this.(portable := Some(file)) else this.(fallback := Some(file))
    }

    function Target(): Place { if active.None? then Portable else active.value }
  }

  /** Whether a write to each place would go through. */
  datatype Weather = Weather(portableWorks: bool, fallbackWorks: bool)
  {
    predicate Works(p: Place) { if p.Portable? then portableWorks else fallbackWorks }
  }

  /** Where a save lands: the active place, else the fallback if that is another one. */
  function Landing(s: Storage, weather: Weather): Option<Place> {
    if weather.Works(s.Target()) then Some(s.Target())
    else if s.Target().Fallback? || !s.hasFallback then None
    else if weather.fallbackWorks then Some(Fallback)
    else None
  }

  function Written(s: Storage, content: Content, time: nat, weather: Weather): Storage {
    var landing := Landing(s, weather);
    if landing.None? then s else s.Replace(landing.value, File(content, time))
  }

  /** PreferFallbackSettings on readable metadata: a missing portable file counts as older. */
  predicate PrefersFallback(s: Storage) {
    && s.hasFallback && s.fallback.Some?
    && (s.portable.None? || s.fallback.value.time > s.portable.value.time)
  }

  /** LoadSettings over valid files: the preferred one that exists. */
  function LoadPlace(s: Storage): Option<Place> {
    var first := if PrefersFallback(s) then Fallback else Portable;
    var second := if PrefersFallback(s) then Portable else Fallback;
    if s.At(first).Some? && (first.Fallback? ==> s.hasFallback) then Some(first)
    else if s.At(second).Some? && (second.Fallback? ==> s.hasFallback) then Some(second)
    else None
  }

  // ---------------------------------------------------------------- the newest save wins

  /** The last successful save is one of the files, and the other one, if any, is older. */
  predicate Newest(s: Storage, last: Option<File>) {
    && (!s.hasFallback ==> s.fallback.None?)
    && (s.active.Some? && s.active.value.Fallback? ==> s.hasFallback)
    && (last.None? ==> s.portable.None? && s.fallback.None?)
    && (last.Some? ==>
          || (s.portable == last && (s.fallback.Some? ==> s.fallback.value.time < last.value.time))
          || (s.fallback == last && (s.portable.Some? ==> s.portable.value.time < last.value.time)))
  }

  predicate LaterThan(time: nat, last: Option<File>) {
    last.Some? ==> last.value.time < time
  }

  lemma SaveIsNewest(s: Storage, last: Option<File>, content: Content, time: nat, weather: Weather)
    requires Newest(s, last) && LaterThan(time, last)
    ensures Newest(Written(s, content, time, weather),
                   if Landing(s, weather).Some? then Some(File(content, time)) else last)
  {
  }

  lemma LoadFindsNewest(s: Storage, last: Option<File>)
    requires Newest(s, last)
    ensures last.None? <==> LoadPlace(s).None?
    ensures last.Some? ==> LoadPlace(s).Some? && s.At(LoadPlace(s).value) == last
  {
  }

  /** What a session does to the store: saves under whatever weather, and restarts. */
  datatype Use = Save(content: Content, time: nat, weather: Weather) | Restart

  /** The store after some uses, the last save that landed, and where. */
  datatype Past = Past(storage: Storage, last: Option<File>, landed: Option<Place>)

  function After(uses: seq<Use>, hasFallback: bool): Past {
    if uses == [] then Past(Storage(None, None, hasFallback, None), None, None)
    else
      var p := After(uses[..|uses| - 1], hasFallback);
      match uses[|uses| - 1]
      case Save(content, time, weather) =>
        var landing := Landing(p.storage, weather);
        if landing.None? then p
        else Past(Written(p.storage, content, time, weather).(active := landing), Some(File(content, time)), landing)
      case Restart => p.(storage := p.storage.(active := LoadPlace(p.storage)))
  }

  function Other(p: Place): Place { if p.Portable? then Fallback else Portable }

  /** The file in the other place does not outrank one saved here at this time: on a tie the
      portable file wins. Before a save this compares the other file's write time with the clock. */
  predicate NotOutranked(s: Storage, here: Place, time: nat) {
    var other := s.At(Other(here));
    other.Some? ==> if here.Portable? then other.value.time <= time else other.value.time < time
  }

  predicate Placed(p: Past) {
    && (!p.storage.hasFallback ==> p.storage.fallback.None?)
    && (p.storage.active == Some(Fallback) ==> p.storage.hasFallback)
    && (p.landed.Some? <==> p.last.Some?)
    && (p.landed.None? ==> p.storage.portable.None? && p.storage.fallback.None?)
    && (p.landed.Some? ==> p.storage.At(p.landed.value) == p.last)
  }

  lemma LoadFindsLandedExactly(p: Past)
    requires Placed(p) && p.landed.Some?
    ensures LoadPlace(p.storage) == p.landed <==> NotOutranked(p.storage, p.landed.value, p.last.value.time)
  {
  }

  lemma {:induction false} UsesArePlaced(uses: seq<Use>, hasFallback: bool)
    ensures Placed(After(uses, hasFallback)) && After(uses, hasFallback).storage.hasFallback == hasFallback
  {
    if uses != [] {
      UsesArePlaced(uses[..|uses| - 1], hasFallback);
    }
  }

  /** Whatever the clock does: after any mix of restarts and portable and fallback failures, a
      load finds the last save that landed exactly when the other place's file does not
      outrank it; and it finds nothing exactly when no save ever landed. */
  lemma LoadFindsLastSaveExactly(uses: seq<Use>, hasFallback: bool)
    ensures
      var p := After(uses, hasFallback);
      && (p.landed.None? <==> LoadPlace(p.storage).None?)
      && (p.landed.Some? ==>
            p.last.Some?
            && (LoadPlace(p.storage) == p.landed <==> NotOutranked(p.storage, p.landed.value, p.last.value.time)))
  {
    UsesArePlaced(uses, hasFallback);
    var p := After(uses, hasFallback);
    if p.landed.Some? {
      LoadFindsLandedExactly(p);
    }
    hide After, NotOutranked;
  }

  /** The same, said before the save: it will be found by the next load exactly when, at that
      moment, the other place's file does not outrank it. */
  lemma SaveIsFoundExactly(uses: seq<Use>, hasFallback: bool, content: Content, time: nat, weather: Weather)
    ensures
      var before := After(uses, hasFallback).storage;
      var after := After(uses + [Save(content, time, weather)], hasFallback).storage;
      var landing := Landing(before, weather);
      landing.Some? ==>
        && after.At(landing.value) == Some(File(content, time))
        && (LoadPlace(after) == landing <==> NotOutranked(before, landing.value, time))
  {
    var all := uses + [Save(content, time, weather)];
    assert all[..|all| - 1] == uses;
    UsesArePlaced(uses, hasFallback);
    LoadFindsLastSaveExactly(all, hasFallback);
  }

  /** A clock that strictly increases from save to save. */
  predicate Ticking(uses: seq<Use>) {
    forall i, j :: 0 <= i < j < |uses| && uses[i].Save? && uses[j].Save? ==> uses[i].time < uses[j].time
  }

  predicate TimeWasUsed(uses: seq<Use>, last: Option<File>) {
    last.Some? ==>
      exists i :: 0 <= i < |uses| && uses[i].Save?
                  && uses[i].time == last.value.time && uses[i].content == last.value.content
  }

  lemma {:induction false} UsesKeepNewest(uses: seq<Use>, hasFallback: bool)
    requires Ticking(uses)
    ensures Newest(After(uses, hasFallback).storage, After(uses, hasFallback).last)
    ensures After(uses, hasFallback).storage.hasFallback == hasFallback
    ensures TimeWasUsed(uses, After(uses, hasFallback).last)
  {
    if uses != [] {
      var n := |uses| - 1;
      var before := uses[..n];
      UsesKeepNewest(before, hasFallback);
      var p := After(before, hasFallback);
      EarlierTime(uses, p.last);
      LoadFindsNewest(p.storage, p.last);
      if uses[n].Save? {
        SaveIsNewest(p.storage, p.last, uses[n].content, uses[n].time, uses[n].weather);
      }
      hide Ticking, LoadPlace;
    }
  }

  lemma EarlierTime(uses: seq<Use>, last: Option<File>)
    requires uses != [] && Ticking(uses) && TimeWasUsed(uses[..|uses| - 1], last)
    ensures TimeWasUsed(uses, last)
    ensures uses[|uses| - 1].Save? ==> LaterThan(uses[|uses| - 1].time, last)
  {
    var before := uses[..|uses| - 1];
    if last.Some? {
      var i :| 0 <= i < |before| && before[i].Save? && before[i].time == last.value.time
        && before[i].content == last.value.content;
      assert uses[i] == before[i];
    }
  }

  /** So under a strictly increasing clock a load finds exactly the last save that landed. */
  lemma LoadReturnsLastSave(uses: seq<Use>, hasFallback: bool)
    requires Ticking(uses)
    ensures
      var p := After(uses, hasFallback);
      && (p.last.None? <==> LoadPlace(p.storage).None?)
      && (p.last.Some? ==> p.storage.At(LoadPlace(p.storage).value).Some?
                           && p.storage.At(LoadPlace(p.storage).value).value.content == p.last.value.content)
  {
    UsesKeepNewest(uses, hasFallback);
    var p := After(uses, hasFallback);
    LoadFindsNewest(p.storage, p.last);
    hide After, Ticking, Newest, TimeWasUsed, LoadPlace;
  }

  /** A clock that stands still breaks that: the portable file wins the tie. */
  lemma TieLosesFallbackSave(earlier: Content, newer: Content, time: nat)
    requires earlier != newer
    ensures
      var uses := [Save(earlier, time, Weather(true, true)), Save(newer, time, Weather(false, true))];
      var p := After(uses, true);
      && p.last == Some(File(newer, time)) && p.landed == Some(Fallback)
      && LoadPlace(p.storage) == Some(Portable) && p.storage.portable == Some(File(earlier, time))
  {
    var uses := [Save(earlier, time, Weather(true, true)), Save(newer, time, Weather(false, true))];
    assert uses[..1] == [Save(earlier, time, Weather(true, true))];
    assert uses[..1][..0] == [];
    assert After(uses[..1], true)
        == Past(Storage(Some(File(earlier, time)), None, true, Some(Portable)), Some(File(earlier, time)),
                Some(Portable));
  }

  // ---------------------------------------------------------------- one atomic write

  /** From this offset on, every WriteFile takes at least one byte and no more than it was given. */
  predicate Accepted(length: nat, offset: nat, accepts: seq<nat>)
    requires offset <= length
    decreases length - offset
  {
    offset == length ||
    (accepts != [] && 1 <= accepts[0] <= Min(length - offset, 4096)
     && Accepted(length, offset + accepts[0], accepts[1..]))
  }

  /** WriteSettingsAtomically: succeeds exactly when the temporary file could be created, every
      WriteFile took something, the flush worked and the move worked; then the file holds
      every byte, and otherwise it is untouched. */
  method WriteSettingsAtomically(utf8: Content, creates: bool, accepts: seq<nat>, flushes: bool, moves: bool,
                                 target: Option<Content>)
    returns (ok: bool, file: Option<Content>, temporaryLeft: bool)
    ensures ok <==> creates && Accepted(|utf8|, 0, accepts) && flushes && moves
    ensures file == if ok then Some(utf8) else target
    ensures !temporaryLeft
  {
    file, ok, temporaryLeft := target, false, false;
    if !creates {
      return;
    }
    temporaryLeft := true;
    var temporary: Content := [];
    var offset := 0;
    var n := 0;
    while offset < |utf8|
      invariant offset <= |utf8| && n <= |accepts| && temporary == utf8[..offset]
      invariant Accepted(|utf8|, 0, accepts) == Accepted(|utf8|, offset, accepts[n..])
      invariant file == target && temporaryLeft && !ok
      decreases |utf8| - offset
    {
      var chunk := Min(|utf8| - offset, CONFIG_BUFFER_SIZE);
      var written := if n < |accepts| && accepts[n] <= chunk then accepts[n] else 0;
      if written == 0 {
        temporaryLeft := false;
        return;
      }
      assert accepts[n..][1..] == accepts[n + 1..];
      temporary := temporary + utf8[offset..offset + written];
      offset := offset + written;
      n := n + 1;
    }
    assert temporary == utf8;
    if flushes && moves {
      file, ok := Some(temporary), true;
    }
    temporaryLeft := false;
  }

  class SettingsStorage {
    var portable: Option<File>
    var fallback: Option<File>
    var hasFallback: bool
    var activePath: Option<Place>

    constructor (hasFallback: bool)
      ensures View() == Storage(None, None, hasFallback, None)
    {
      portable, fallback, activePath := None, None, None;
      this.hasFallback := hasFallback;
    }

    function View(): Storage
      reads this
    {
      Storage(portable, fallback, hasFallback, activePath)
    }

    method SaveSettings(content: Content, time: nat, weather: Weather) returns (saved: bool)
      modifies this
      ensures saved <==> Landing(old(View()), weather).Some?
      ensures
        var path := if old(activePath).Some? then old(activePath).value else Portable;
        var works := if path.Portable? then weather.portableWorks else weather.fallbackWorks;
        var instead := !works && path.Portable? && hasFallback && weather.fallbackWorks;
        && (saved <==> works || instead)
        && activePath == (if works then Some(path) else if instead then Some(Fallback) else old(activePath))
        && portable == (if works && path.Portable? then Some(File(content, time)) else old(portable))
        && fallback == (if instead || (works && path.Fallback?) then Some(File(content, time)) else old(fallback))
        && hasFallback == old(hasFallback)
      ensures View() ==
        if saved then Written(old(View()), content, time, weather).(active := Landing(old(View()), weather))
        else old(View())
    {
      var path := if activePath.None? then Portable else activePath.value;
      if !weather.Works(path) {
        if path.Fallback? || !hasFallback {
          return false;
        }
        path := Fallback;
        if !weather.Works(path) {
          return false;
        }
      }
      if path.Portable? {
        portable := Some(File(content, time));
      } else {
        fallback := Some(File(content, time));
      }
      activePath := Some(path);
      saved := true;
    }

    method LoadSettings() returns (content: Option<Content>)
      modifies `activePath
      ensures View() == old(View()).(active := LoadPlace(old(View())))
      ensures content == if LoadPlace(old(View())).None? then None else Some(View().At(activePath.value).value.content)
    {
      var first, second := Portable, Fallback;
      if hasFallback && fallback.Some? && (portable.None? || fallback.value.time > portable.value.time) {
        first, second := second, first;
      }
      activePath := None;
      var order := [first, second];
      var i := 0;
      while i < 2
        invariant i <= 2 && activePath.None?
        invariant i > 0 ==> !(View().At(first).Some? && (first.Fallback? ==> hasFallback))
        invariant i > 1 ==> !(View().At(second).Some? && (second.Fallback? ==> hasFallback))
      {
        var path := order[i];
        if View().At(path).Some? && (path.Fallback? ==> hasFallback) {
          activePath := Some(path);
          return Some(View().At(path).value.content);
        }
        i := i + 1;
      }
      content := None;
    }
  }
}
