/**
 BuffetConfig: named settings kept in files next to one settings path. Files
 may fail to be read or written, and contents may fail to encrypt or decrypt.
 */
module BuffetConfig {
  import opened Base

  // options_.settings, split before its extension. The base name is `special`
  // when it is empty, "." or "..": then nothing can be inserted into it.
  datatype SettingsPath = SettingsPath(stem: string, extension: string, special: bool)

  function CreatePath(p: SettingsPath, name: string): string {
    if name == "" then p.stem + p.extension
    else if p.special then ""
    else p.stem + ("." + name) + p.extension
  }

  // Names never share a file, unless the settings path has a special base name.
  lemma PathsAreDistinct(p: SettingsPath)
    ensures !p.special <==> forall m, n :: m != n ==> CreatePath(p, m) != CreatePath(p, n)
  {
    if p.special {
      assert "a" != "b" && CreatePath(p, "a") == CreatePath(p, "b");
    } else {
      forall m, n | CreatePath(p, m) == CreatePath(p, n)
        ensures m == n
      {
        PathGivesName(p, m);
        PathGivesName(p, n);
        assert m == "" || m == ("." + m)[1..];
        assert n == "" || n == ("." + n)[1..];
      }
    }
  }

  lemma PathGivesName(p: SettingsPath, name: string)
    requires !p.special
    ensures var path := CreatePath(p, name);
            && |path| >= |p.stem| + |p.extension|
            && p.stem <= path && path[|path| - |p.extension|..] == p.extension
            && path[|p.stem|..|path| - |p.extension|] == if name == "" then "" else "." + name
  {
    var inserted := if name == "" then "" else "." + name;
    var path := CreatePath(p, name);
    assert path == p.stem + inserted + p.extension;
    assert path[|p.stem|..|path| - |p.extension|] == inserted;
  }

  type Files = map<string, string>

  // What is fixed over a run: where settings live, and what each ciphertext decrypts to, if it authenticates.
  datatype Env = Env(path: SettingsPath, decrypt: string -> Option<string>)

  // What is outside the store's control during one call: whether reading, decrypting and writing work, and
  // what encrypting came to.
  datatype Fate = Fate(readOk: bool, decryptOk: bool, encrypted: Option<string>, writeOk: bool)

  // A ciphertext that was made from `plain` decrypts to it.
  predicate Faithful(env: Env, plain: string, encrypted: Option<string>) {
    encrypted.Some? ==> env.decrypt(encrypted.value) == Some(plain)
  }

  function Save(env: Env, files: Files, name: string, fate: Fate): Files {
    if fate.writeOk
    then files[CreatePath(env.path, name) := if fate.encrypted.Some? then fate.encrypted.value else ""]
    else files
  }

  datatype Reading = Unreadable | Garbled | Plain(value: string)

  // What the file of a name holds, however a particular call fares.
  function Contents(env: Env, files: Files, name: string): Reading {
    var path := CreatePath(env.path, name);
    if path !in files then Unreadable
    else match env.decrypt(files[path])
      case None => Garbled
      case Some(value) => Plain(value)
  }

  // What a written save of `plain` leaves in its file: nothing but an empty file if it cannot encrypt.
  function Left(env: Env, plain: string, fate: Fate): Reading {
    if fate.encrypted.Some? then Plain(plain)
    else match env.decrypt("")
      case None => Garbled
      case Some(value) => Plain(value)
  }

  // What a load makes of it.
  function Read(env: Env, files: Files, name: string, fate: Fate): Reading {
    var contents := Contents(env, files, name);
    if !fate.readOk then Unreadable
    else if contents.Plain? && !fate.decryptOk then Garbled
    else contents
  }

  // The files after a load. After a failed decryption the call that should empty
  // the named settings passes name and contents in the wrong order.
  function Load(env: Env, files: Files, name: string, fate: Fate): Files {
    if Read(env, files, name, fate).Garbled? then Save(env, files, "", fate) else files
  }

  function Loaded(env: Env, files: Files, name: string, fate: Fate): string {
    match Read(env, files, name, fate)
    case Plain(value) => value
    case _ => ""
  }

  datatype Fault = EncryptFailed | WriteFailed

  function Faults(fate: Fate): seq<Fault> {
    (if fate.encrypted.None? then [EncryptFailed] else []) + (if fate.writeOk then [] else [WriteFailed])
  }

  // ---- runs ----

  datatype Event =
    | Saving(name: string, settings: string, fate: Fate)
    | Loading(name: string, fate: Fate)

  function Step(env: Env, files: Files, e: Event): Files {
    match e
    case Saving(name, settings, fate) => Save(env, files, name, fate)
    case Loading(name, fate) => Load(env, files, name, fate)
  }

  function Run(env: Env, files: Files, events: seq<Event>): Files {
    if events == [] then files
    else Step(env, Run(env, files, events[..|events| - 1]), events[|events| - 1])
  }

  // Ciphertexts decrypt to what they were made from; a recovery encrypts the name.
  predicate Honest(env: Env, e: Event) {
    Faithful(env, if e.Saving? then e.settings else e.name, e.fate.encrypted)
  }

  function After(m: map<string, string>, e: Event): map<string, string> {
    if e.Saving? && e.fate.writeOk then m[e.name := e.settings] else m
  }

  // The map that the store should stand for: the last successfully written settings of each name.
  function Written(initial: map<string, string>, events: seq<Event>): map<string, string> {
    if events == [] then initial
    else After(Written(initial, events[..|events| - 1]), events[|events| - 1])
  }

  // The files hold what the map says, for every name.
  ghost predicate Holds(env: Env, files: Files, m: map<string, string>) {
    forall name :: Contents(env, files, name) == if name in m then Plain(m[name]) else Unreadable
  }

  // A save that is written without having been encrypted, or a recovery that alters the default settings.
  predicate Spoils(env: Env, files: Files, e: Event) {
    && e.fate.writeOk
    && match e
       case Saving(_, settings, fate) => Left(env, settings, fate) != Plain(settings)
       case Loading(name, fate) =>
         Read(env, files, name, fate).Garbled? && Left(env, name, fate) != Contents(env, files, "")
  }

  // A written save gives its name what it leaves there; every other name is as it was.
  lemma SaveIsLocal(env: Env, files: Files, name: string, settings: string, fate: Fate, other: string)
    requires !env.path.special && Faithful(env, settings, fate.encrypted)
    ensures Contents(env, Save(env, files, name, fate), other) ==
            if other == name && fate.writeOk then Left(env, settings, fate) else Contents(env, files, other)
  {
    PathsAreDistinct(env.path);
  }

  lemma StepHoldsExactly(env: Env, files: Files, m: map<string, string>, e: Event)
    requires !env.path.special && Honest(env, e) && Holds(env, files, m)
    ensures Holds(env, Step(env, files, e), After(m, e)) <==> !Spoils(env, files, e)
  {
    var plain := if e.Saving? then e.settings else e.name;
    var target := if e.Saving? then e.name else "";
    forall other {
      SaveIsLocal(env, files, target, plain, e.fate, other);
    }
    hide Save, Contents;
    if Spoils(env, files, e) {
      assert Contents(env, Step(env, files, e), target) == Left(env, plain, e.fate);
    }
  }

  // After the first k events of a run the store is the map of what was written.
  ghost predicate HoldsAt(env: Env, files: Files, initial: map<string, string>, events: seq<Event>, k: nat)
    requires k <= |events|
  {
    Holds(env, Run(env, files, events[..k]), Written(initial, events[..k]))
  }

  predicate SpoilsAt(env: Env, files: Files, events: seq<Event>, k: nat)
    requires k < |events|
  {
    Spoils(env, Run(env, files, events[..k]), events[k])
  }

  lemma HoldsAtStart(env: Env, files: Files, initial: map<string, string>, events: seq<Event>)
    requires Holds(env, files, initial)
    ensures HoldsAt(env, files, initial, events, 0)
  {
    assert events[..0] == [];
    hide Step, Contents;
  }

  lemma NextHoldsExactly(env: Env, files: Files, initial: map<string, string>, events: seq<Event>, k: nat)
    requires k < |events| && !env.path.special && Honest(env, events[k])
    requires HoldsAt(env, files, initial, events, k)
    ensures HoldsAt(env, files, initial, events, k + 1) <==> !SpoilsAt(env, files, events, k)
  {
    assert events[..k + 1][..k] == events[..k];
    StepHoldsExactly(env, Run(env, files, events[..k]), Written(initial, events[..k]), events[k]);
  }

  /**
   Over every run, whatever fails to be read, decrypted, encrypted or written: each file always holds the last
   settings successfully written under its name, exactly as long as no step is a written save that failed to
   encrypt or a written recovery that alters the default settings.
   */
  lemma {:induction false} StoreIsAMapExactly(env: Env, files: Files, initial: map<string, string>,
                                              events: seq<Event>, n: nat)
    requires !env.path.special && Holds(env, files, initial) && n <= |events|
    requires forall e <- events :: Honest(env, e)
    ensures (forall k :: 0 <= k <= n ==> HoldsAt(env, files, initial, events, k)) <==>
            (forall k :: 0 <= k < n ==> !SpoilsAt(env, files, events, k))
    decreases n
  {
    hide HoldsAt, SpoilsAt, Holds, Run, Written;
    if n == 0 {
      HoldsAtStart(env, files, initial, events);
    } else {
      StoreIsAMapExactly(env, files, initial, events, n - 1);
      if HoldsAt(env, files, initial, events, n - 1) {
        NextHoldsExactly(env, files, initial, events, n - 1);
      }
    }
  }

  // The keystore works: saves encrypt, and loads decrypt what was encrypted.
  predicate KeystoreWorks(env: Env, e: Event) {
    Honest(env, e) && if e.Saving? then e.fate.encrypted.Some? else e.fate.decryptOk
  }

  /** So over every run in which the keystore works, whatever reads and writes fail, the store is a map. */
  lemma {:induction false} StoreIsAMap(env: Env, files: Files, initial: map<string, string>, events: seq<Event>)
    requires !env.path.special && Holds(env, files, initial)
    requires forall e <- events :: KeystoreWorks(env, e)
    ensures Holds(env, Run(env, files, events), Written(initial, events))
  {
    if events == [] {
    } else {
      var before, e := events[..|events| - 1], events[|events| - 1];
      StoreIsAMap(env, files, initial, before);
      assert KeystoreWorks(env, e);
      assert !Contents(env, Run(env, files, before), e.name).Garbled?;
      StepHoldsExactly(env, Run(env, files, before), Written(initial, before), e);
      hide Holds;
    }
  }

  lemma {:induction false} LoadGivesLastWritten(env: Env, events: seq<Event>, name: string, fate: Fate)
    requires !env.path.special
    requires (forall e <- events :: KeystoreWorks(env, e)) && fate.decryptOk
    ensures var m := Written(map[], events);
            Loaded(env, Run(env, map[], events), name, fate) == if fate.readOk && name in m then m[name] else ""
  {
    StoreIsAMap(env, map[], map[], events);
  }

  // ---- where it is not a map ----

  // With a special settings path all names but the default one share one file.
  lemma SpecialPathIsShared(env: Env, files: Files, settings: string, fate: Fate, m: string, n: string)
    requires env.path.special && m != "" && n != ""
    requires fate.encrypted.Some? && Faithful(env, settings, fate.encrypted) && fate.writeOk
    ensures Contents(env, Save(env, files, m, fate), n) == Plain(settings)
  {
  }

  /**
   Loading one name leaves every other name alone, except exactly when the contents of a name other than
   the default fail to decrypt and the recovery is written: then the default settings become the text of that
   name, or what an empty file decrypts to if the recovery cannot encrypt either.
   */
  lemma LoadLeavesOthers(env: Env, files: Files, name: string, fate: Fate)
    requires !env.path.special && Faithful(env, name, fate.encrypted)
    ensures (forall other :: other != name ==>
                Contents(env, Load(env, files, name, fate), other) == Contents(env, files, other))
            <==>
            !(name != "" && Read(env, files, name, fate).Garbled? && fate.writeOk &&
              Contents(env, files, "") != Left(env, name, fate))
  {
    PathsAreDistinct(env.path);
    var after := Load(env, files, name, fate);
    if Read(env, files, name, fate).Garbled? && fate.writeOk {
      assert Contents(env, after, "") == Left(env, name, fate);
    }
  }

  // The named file itself is not emptied: the next load finds what this one found.
  lemma GarbledStaysGarbled(env: Env, files: Files, name: string, fate: Fate)
    requires !env.path.special && name != ""
    requires Read(env, files, name, fate).Garbled?
    ensures Contents(env, Load(env, files, name, fate), name) == Contents(env, files, name)
    ensures Read(env, Load(env, files, name, fate), name, fate).Garbled?
  {
    PathsAreDistinct(env.path);
  }

  // One failure of the keystore while loading good named settings loses the default ones.
  const PLAIN_ENV := Env(SettingsPath("/data/settings", ".json", false), (c: string) => Some(c))

  const LOSING_RUN := [Saving("", "defaults", Fate(true, true, Some("defaults"), true)),
                       Saving("n", "named", Fate(true, true, Some("named"), true)),
                       Loading("n", Fate(true, false, Some("n"), true))]

  lemma DefaultsLost()
    ensures Contents(PLAIN_ENV, Run(PLAIN_ENV, map[], LOSING_RUN[..2]), "") == Plain("defaults")
    ensures Contents(PLAIN_ENV, Run(PLAIN_ENV, map[], LOSING_RUN), "") == Plain("n")
    ensures Contents(PLAIN_ENV, Run(PLAIN_ENV, map[], LOSING_RUN), "n") == Plain("named")
    ensures forall e <- LOSING_RUN :: e.Saving? ==> KeystoreWorks(PLAIN_ENV, e)
  {
    var env, e := PLAIN_ENV, LOSING_RUN;
    var s1, s2 := Step(env, map[], e[0]), Step(env, Step(env, map[], e[0]), e[1]);
    PathsAreDistinct(env.path);
    assert e[..1] == [e[0]] && [e[0]][..0] == [];
    assert Run(env, map[], [e[0]]) == s1;
    assert e[..2][..1] == [e[0]];
    assert Run(env, map[], e[..2]) == s2;
    assert Contents(env, s2, "") == Plain("defaults") && Contents(env, s2, "n") == Plain("named");
    assert Run(env, map[], e) == Step(env, s2, e[2]);
  }

  // A failed encryption destroys what was stored, unless writing fails too.
  lemma FailedEncryptionEmpties(env: Env, files: Files, name: string, fate: Fate)
    requires fate.encrypted.None?
    requires env.decrypt("").Some? ==> env.decrypt("") == Some("")
    ensures Loaded(env, Save(env, files, name, fate), name, fate) ==
            if fate.writeOk then "" else Loaded(env, files, name, fate)
    ensures EncryptFailed in Faults(fate)
  {
  }

  // ---- the object ----

  class BuffetConfig {
    const env: Env
    var files: Files
    var posted: seq<seq<Fault>>  // completion callbacks posted so far, with the errors each will get

    constructor (env: Env, files: Files)
      ensures this.env == env && this.files == files && posted == []
    {
      this.env := env;
      this.files := files;
      posted := [];
    }

    method SaveSettings(name: string, settings: string, fate: Fate, hasCallback: bool)
      requires Faithful(env, settings, fate.encrypted)
      modifies this
      ensures files == Save(env, old(files), name, fate)
      ensures posted == old(posted) + if hasCallback then [Faults(fate)] else []
      ensures hasCallback ==>
                && |posted| == |old(posted)| + 1
                && (posted[|old(posted)|] == [] <==> fate.encrypted.Some? && fate.writeOk)
                && (EncryptFailed in posted[|old(posted)|] <==> fate.encrypted.None?)
                && (WriteFailed in posted[|old(posted)|] <==> !fate.writeOk)
    {
      var errors: seq<Fault> := [];
      var encrypted := "";
      if fate.encrypted.Some? { encrypted := fate.encrypted.value; }
      var path := CreatePath(env.path, name);
      if fate.encrypted.None? {
        errors := errors + [EncryptFailed];
        encrypted := "";
      }
      if fate.writeOk {
        files := files[path := encrypted];
      } else {
        errors := errors + [WriteFailed];
      }
      assert errors == Faults(fate);
      if hasCallback {
        posted := posted + [errors];
      }
    }

    // If a recovery is needed, what it encrypts is the name.
    method LoadSettings(name: string, fate: Fate) returns (r: string)
      requires Faithful(env, name, fate.encrypted)
      modifies this
      ensures r == Loaded(env, old(files), name, fate)
      ensures !Read(env, old(files), name, fate).Plain? ==> r == ""
      ensures files == Load(env, old(files), name, fate) && posted == old(posted)
    {
      var path := CreatePath(env.path, name);
      if !fate.readOk || path !in files { return ""; }
      var json := if fate.decryptOk then env.decrypt(files[path]) else None;
      if json.None? {
        SaveSettings("", name, fate, false);
        return "";
      }
      return json.value;
    }
  }
}
