/** What the resolution sequence guarantees, stated over all hosts and all
    starting states. */
module Properties {
  import opened Json
  import opened Resolution

  /** Joining a relative component keeps the first component as a prefix and
      the second as a suffix, with a '/' just before the second whenever the
      first is not empty; an empty first component adds no separator. */
  lemma PathJoinParts(a: string, b: string)
    requires !(|b| > 0 && b[0] == '/')
    ensures var r := PathJoin(a, b);
            r[..|a|] == a && r[|r| - |b|..] == b &&
            (a != [] ==> r[|r| - |b| - 1] == '/') &&
            (a != [] && a[|a| - 1] == '/' ==> r == a + b) &&
            (a == [] ==> r == b)
  {
  }

  /** The config path is always `<base>/.keras/keras.json`, whatever the base. */
  lemma ConfigPathShape(base: string)
    ensures ConfigPath(base) ==
      (if base == [] || base[|base| - 1] == '/' then base else base + "/") + ".keras/keras.json"
  {
  }

  /** The config file lives under the home directory when that is writable,
      and under /tmp otherwise. */
  lemma ConfigPathChoice(s: Settings, h: Host)
    ensures h.homeWritable ==> Resolve(s, h).configPath == ConfigPath(h.home)
    ensures !h.homeWritable ==> Resolve(s, h).configPath == "/tmp/.keras/keras.json"
  {
  }

  /** A config file json.load cannot parse behaves exactly like `{}`. */
  lemma MalformedIsEmpty(s: Settings, h: Host)
    requires h.configFile == Some(Malformed)
    ensures Resolve(s, h) == Resolve(s, h.(configFile := Some(Parsed(Dict([])))))
  {
  }

  /** An existing file that does not parse is not the same as no file: it
      suppresses the seed write, and the current values still go through the
      checks. From valid settings, and when the run without a file does not
      fail writing its seed, the two agree on everything but the seed. */
  lemma MalformedVersusAbsent(s: Settings, h: Host)
    requires h.configFile == Some(Malformed)
    ensures Resolve(s, h).seed == None
    ensures !ValidSettings(s) ==> Resolve(s, h).result.Failure?
    ensures var absent := Resolve(s, h.(configFile := None));
            ValidSettings(s) && absent.result != Failure(SeedWriteError) ==>
              Resolve(s, h).state == absent.state && Resolve(s, h).result == absent.result
  {
  }

  /** An empty (or malformed) file keeps every current value. */
  lemma EmptyFileKeepsCurrent(cur: Config)
    ensures ValidConfig(cur) ==> FileLayer(cur, Malformed) == Success(cur)
    ensures FileLayer(cur, Malformed).Success? <==> ValidConfig(cur)
  {
  }

  /** For each key: the file's value when present, the current one otherwise;
      and the file layer succeeds exactly when all four resolved values are
      in their domains. */
  lemma FilePrecedence(cur: Config, d: seq<(string, Value)>)
    ensures var c := Config(Get(d, "floatx", cur.floatx), Get(d, "epsilon", cur.epsilon),
                            Get(d, "backend", cur.backend),
                            Get(d, "image_data_format", cur.imageDataFormat));
            (ValidConfig(c) ==> FileLayer(cur, Parsed(Dict(d))) == Success(c)) &&
            (FileLayer(cur, Parsed(Dict(d))).Success? <==> ValidConfig(c))
  {
  }

  /** The four ways the file layer aborts, and which check reports first. */
  lemma FileLayerFailures(cur: Config, d: seq<(string, Value)>)
    ensures var r := FileLayer(cur, Parsed(Dict(d)));
            var fx := Get(d, "floatx", cur.floatx);
            var eps := Get(d, "epsilon", cur.epsilon);
            var be := Get(d, "backend", cur.backend);
            var fmt := Get(d, "image_data_format", cur.imageDataFormat);
            && (!StrIn(fx, FloatxDomain) ==>
                  r == Failure(if Hashable(fx) then AssertionError(FileFloatx) else TypeError(FileFloatx)))
            && (StrIn(fx, FloatxDomain) && !eps.Float? ==>
                  r == Failure(AssertionError(FileEpsilon)))
            && (StrIn(fx, FloatxDomain) && eps.Float? && !StrIn(be, BackendDomain) ==>
                  r == Failure(if Hashable(be) then AssertionError(FileBackend) else TypeError(FileBackend)))
            && (StrIn(fx, FloatxDomain) && eps.Float? && StrIn(be, BackendDomain) && !StrIn(fmt, ImageDataFormatDomain) ==>
                  r == Failure(if Hashable(fmt) then AssertionError(FileImageDataFormat) else TypeError(FileImageDataFormat)))
  {
  }

  /** When the file layer aborts, no setter has run and `_BACKEND` still holds
      the default; no seed is written and no backend is bound. */
  lemma FileFailureChangesNothing(s: Settings, h: Host)
    requires h.configFile.Some? && FileLayer(StartConfig(s), h.configFile.value).Failure?
    ensures var run := Resolve(s, h);
            run.state == StartConfig(s) && run.seed == None && run.result.Failure?
  {
  }

  /** No file and no KERAS_BACKEND: tensorflow, and no setter changes anything. */
  lemma NoFileNoEnvDefaults(s: Settings, h: Host)
    requires h.configFile.None? && h.kerasBackend.None?
    ensures var run := Resolve(s, h);
            run.state == StartConfig(s) &&
            run.result == (if SeedAttempted(h) && !SeedWriteSucceeds(h) then Failure(SeedWriteError)
                           else Success(TensorFlow))
  {
  }

  /** The seed is written only when the base directory is writable and no file
      exists; it holds the values from before the environment layer. */
  lemma SeedContents(s: Settings, h: Host)
    ensures var run := Resolve(s, h);
            run.seed.Some? <==> SeedAttempted(h) && SeedWriteSucceeds(h)
    ensures var run := Resolve(s, h);
            run.seed.Some? ==> run.seed.value == StartConfig(s)
  {
  }

  /** The environment variable never reaches the seed file nor the settings:
      only `_BACKEND` and the result can differ. */
  lemma EnvOnlyAffectsBackend(s: Settings, h: Host)
    ensures var withEnv := Resolve(s, h);
            var without := Resolve(s, h.(kerasBackend := None));
            withEnv.seed == without.seed &&
            SettingsOf(withEnv.state) == SettingsOf(without.state)
  {
  }

  /** KERAS_BACKEND wins over the file and the default whenever it is valid
      and the earlier steps succeed; an invalid one aborts. */
  lemma EnvOverride(s: Settings, h: Host, name: string)
    requires h.kerasBackend == Some(name)
    requires Resolve(s, h.(kerasBackend := None)).result.Success?
    ensures var run := Resolve(s, h);
            if name in BackendDomain then run.result.Success? && run.state.backend == Str(name)
            else run.result == Failure(AssertionError(EnvBackend))
  {
  }

  /** With `.keras` missing, the OSError of a failing makedirs is swallowed:
      the run is the same as one whose directory was created but whose seed
      file cannot be created, so makedirs itself never reports an error. This
      holds for a file system that does not change during the import; another
      process creating `.keras` between the exists() test and makedirs is not
      modelled. */
  lemma MakedirsFailureSwallowed(s: Settings, h: Host)
    requires !h.kerasDirExists
    ensures Resolve(s, h.(makedirsSucceeds := false)) ==
            Resolve(s, h.(makedirsSucceeds := true, configCreatable := false))
  {
  }

  /** On a file system that does not change during the import, swallowing the
      makedirs failure never saves it: with `.keras` missing and not created,
      the unguarded open(path, 'w') raises. */
  lemma MissingDirectoryAbortsSeed(s: Settings, h: Host)
    requires SeedAttempted(h) && !h.kerasDirExists && !h.makedirsSucceeds
    ensures Resolve(s, h).result == Failure(SeedWriteError)
    ensures Resolve(s, h).seed == None
  {
  }

  /** An existing file that cannot be read, or that parses to something other
      than an object, stops the import before any setter runs and before any
      seed is written. */
  lemma ExistingFileAborts(s: Settings, h: Host)
    requires h.configFile == Some(Unreadable) ||
             (h.configFile.Some? && h.configFile.value.Parsed? && !h.configFile.value.doc.Dict?)
    ensures var run := Resolve(s, h);
            run.state == StartConfig(s) && run.seed == None &&
            run.result == Failure(if h.configFile.value.Unreadable? then ConfigUnreadable else ConfigNotADict)
  {
  }

  /** Without KERAS_BACKEND, a file that passes its checks decides the final
      state, `_BACKEND` included, and the import succeeds. */
  lemma FileWinsWithoutEnv(s: Settings, h: Host, d: seq<(string, Value)>)
    requires h.configFile == Some(Parsed(Dict(d))) && h.kerasBackend.None?
    requires FileLayer(StartConfig(s), Parsed(Dict(d))).Success?
    ensures Resolve(s, h).state == FileLayer(StartConfig(s), Parsed(Dict(d))).value
    ensures Resolve(s, h).result.Success?
  {
  }

  /** The seed write itself is not guarded. */
  lemma SeedWriteFailureAborts(s: Settings, h: Host)
    requires SeedAttempted(h) && !SeedWriteSucceeds(h)
    ensures Resolve(s, h).result == Failure(SeedWriteError)
  {
  }

  /** The 'Unknown backend' ValueError is never raised, and a successful import
      binds the module named by the final `_BACKEND`. */
  lemma UnknownBackendUnreachable(s: Settings, h: Host)
    ensures var run := Resolve(s, h);
            run.result != Failure(UnknownBackend) &&
            (run.result.Success? ==> run.state.backend == Str(EngineName(run.result.value)))
  {
  }

  /** Starting from valid settings, a successful import leaves a valid configuration. */
  lemma SuccessIsValid(s: Settings, h: Host)
    requires ValidSettings(s) || h.configFile.Some?
    ensures var run := Resolve(s, h);
            run.result.Success? ==> ValidConfig(run.state)
  {
  }

  /** The member added last decides the value of its key. */
  lemma LookupLastMember(members: seq<(string, Value)>, key: string, v: Value)
    ensures Lookup(members + [(key, v)], key) == Some(v)
  {
  }

  /** A member with another key does not change the value of `key`. */
  lemma LookupOtherMember(members: seq<(string, Value)>, other: string, v: Value, key: string)
    requires other != key
    ensures Lookup(members + [(other, v)], key) == Lookup(members, key)
  {
  }

  /** Each of the four keys of the seed document holds its field. */
  lemma SeedDocumentLookups(c: Config)
    ensures Lookup(SeedDocument(c).members, "floatx") == Some(c.floatx)
    ensures Lookup(SeedDocument(c).members, "epsilon") == Some(c.epsilon)
    ensures Lookup(SeedDocument(c).members, "backend") == Some(c.backend)
    ensures Lookup(SeedDocument(c).members, "image_data_format") == Some(c.imageDataFormat)
  {
    var m1 := [("floatx", c.floatx)];
    var m2 := m1 + [("epsilon", c.epsilon)];
    var m3 := m2 + [("backend", c.backend)];
    var m4 := m3 + [("image_data_format", c.imageDataFormat)];
    assert SeedDocument(c).members == m4;
    LookupLastMember([], "floatx", c.floatx);
    LookupOtherMember(m1, "epsilon", c.epsilon, "floatx");
    LookupOtherMember(m2, "backend", c.backend, "floatx");
    LookupOtherMember(m3, "image_data_format", c.imageDataFormat, "floatx");
    LookupLastMember(m1, "epsilon", c.epsilon);
    LookupOtherMember(m2, "backend", c.backend, "epsilon");
    LookupOtherMember(m3, "image_data_format", c.imageDataFormat, "epsilon");
    LookupLastMember(m2, "backend", c.backend);
    LookupOtherMember(m3, "image_data_format", c.imageDataFormat, "backend");
    LookupLastMember(m3, "image_data_format", c.imageDataFormat);
  }

  /** Reading back the seed file gives the values it was written from. */
  lemma SeedRoundTrip(cur: Config, c: Config)
    requires ValidConfig(c)
    ensures FileLayer(cur, Parsed(SeedDocument(c))) == Success(c)
  {
    SeedDocumentLookups(c);
    FilePrecedence(cur, SeedDocument(c).members);
  }

  /** A second import that finds the seed file written by the first resolves
      to the same state and writes nothing. */
  lemma SecondRunStable(s: Settings, h: Host)
    requires ValidSettings(s)
    requires Resolve(s, h).seed.Some?
    ensures var first := Resolve(s, h);
            var second := Resolve(s, h.(configFile := Some(Parsed(SeedDocument(first.seed.value)))));
            second.state == first.state && second.result == first.result && second.seed == None
  {
    SeedRoundTrip(StartConfig(s), StartConfig(s));
  }

  /** The first run: no file, writable home, no KERAS_BACKEND. */
  lemma FirstRunScenario(h: Host)
    requires h.homeWritable && h.configFile.None? && h.kerasBackend.None? && SeedWriteSucceeds(h)
    ensures Resolve(DefaultSettings, h) ==
      Run(ConfigPath(h.home),
          Config(Str("float32"), Float(0.0000001), Str("tensorflow"), Str("channels_last")),
          Some(Config(Str("float32"), Float(0.0000001), Str("tensorflow"), Str("channels_last"))),
          Success(TensorFlow))
  {
  }

  /** `{"backend": "theano"}` in the file with KERAS_BACKEND=tensorflow. */
  lemma EnvWinsScenario(h: Host)
    requires h.configFile == Some(Parsed(Dict([("backend", Str("theano"))])))
    requires h.kerasBackend == Some("tensorflow")
    ensures Resolve(DefaultSettings, h).result == Success(TensorFlow)
    ensures Resolve(DefaultSettings, h).state.backend == Str("tensorflow")
  {
  }

  /** `{"floatx": "float8"}` in the file aborts at the floatx assertion. */
  lemma InvalidFloatxScenario(s: Settings, h: Host)
    requires h.configFile == Some(Parsed(Dict([("floatx", Str("float8"))])))
    ensures Resolve(s, h).result == Failure(AssertionError(FileFloatx))
  {
  }
}
