/** The argument lists of the two native packaging steps of a Capacitor build:
    `xcrun xcodebuild …` for iOS and `gradlew assemble…` for Android. */
module NativeBuild {
  import Text

  /** The Xcode configuration chosen by the context's debug flag: `debug`
      exactly in a debug build, otherwise `release`. */
  function XcodeConfiguration(debug: bool): (r: string)
    ensures r == "debug" <==> debug
    ensures !debug ==> r == "release"
    ensures ' ' !in r
  {
    if debug then "debug" else "release"
  }

  /** Eight words joined by a separator, grouped from the right. */
  lemma JoinEightWords(a: string, b: string, c: string, d: string,
                       e: string, f: string, g: string, h: string, sep: char)
    ensures Text.JoinWith([a, b, c, d, e, f, g, h], sep)
         == a + [sep] + (b + [sep] + (c + [sep] + (d + [sep] + (e + [sep] + (f + [sep] + (g + [sep] + h))))))
  {
    var words := [a, b, c, d, e, f, g, h];
    assert Text.JoinWith(words[7..], sep) == h;
    assert Text.JoinWith(words[6..], sep) == g + [sep] + h;
    assert Text.JoinWith(words[5..], sep) == f + [sep] + (g + [sep] + h);
    assert Text.JoinWith(words[4..], sep) == e + [sep] + (f + [sep] + (g + [sep] + h));
    assert Text.JoinWith(words[3..], sep) == d + [sep] + (e + [sep] + (f + [sep] + (g + [sep] + h)));
    assert Text.JoinWith(words[2..], sep) == c + [sep] + (d + [sep] + (e + [sep] + (f + [sep] + (g + [sep] + h))));
    assert Text.JoinWith(words[1..], sep) == b + [sep] + (c + [sep] + (d + [sep] + (e + [sep] + (f + [sep] + (g + [sep] + h)))));
  }

  /** The command-line template that the iOS step splits on spaces, written out
      word by word (the same string as the template literal). */
  function XcodebuildCommandLine(buildType: string): string
  {
    "xcodebuild" + " " + "-workspace" + " " + "App.xcworkspace" + " " + "-scheme" + " " + "App"
    + " " + "-configuration" + " " + buildType + " " + "-derivedDataPath"
  }

  /** The tokens that template stands for, one per argument. */
  function XcodebuildTokens(buildType: string): seq<string>
  {
    ["xcodebuild", "-workspace", "App.xcworkspace", "-scheme", "App",
     "-configuration", buildType, "-derivedDataPath"]
  }

  /** Eight words without the separator, joined by it, split back into the
      same eight words. */
  lemma SplitEightWords(a: string, b: string, c: string, d: string,
                        e: string, f: string, g: string, h: string, sep: char)
    requires sep !in a && sep !in b && sep !in c && sep !in d
    requires sep !in e && sep !in f && sep !in g && sep !in h
    ensures Text.Split(a + [sep] + (b + [sep] + (c + [sep] + (d + [sep] + (e + [sep] + (f + [sep] + (g + [sep] + h)))))), sep)
         == [a, b, c, d, e, f, g, h]
  {
    JoinEightWords(a, b, c, d, e, f, g, h, sep);
    Text.SplitJoin([a, b, c, d, e, f, g, h], sep);
  }

  /** The template, grouped word by word. */
  lemma XcodebuildCommandLineWords(buildType: string)
    ensures XcodebuildCommandLine(buildType)
         == "xcodebuild" + [' '] + ("-workspace" + [' '] + ("App.xcworkspace" + [' '] + ("-scheme" + [' ']
            + ("App" + [' '] + ("-configuration" + [' '] + (buildType + [' '] + "-derivedDataPath"))))))
  {
  }

  /** The template is its eight tokens joined by single spaces, with the
      configuration seventh. */
  lemma XcodebuildCommandLineJoins(buildType: string)
    ensures XcodebuildCommandLine(buildType) == Text.JoinWith(XcodebuildTokens(buildType), ' ')
  {
    XcodebuildCommandLineWords(buildType);
    JoinEightWords("xcodebuild", "-workspace", "App.xcworkspace", "-scheme", "App",
                   "-configuration", buildType, "-derivedDataPath", ' ');
  }

  /** Splitting the template on spaces yields exactly its eight tokens, provided
      the configuration name has no space in it. */
  lemma XcodebuildCommandLineSplits(buildType: string)
    requires ' ' !in buildType
    ensures Text.Split(XcodebuildCommandLine(buildType), ' ') == XcodebuildTokens(buildType)
  {
    XcodebuildCommandLineWords(buildType);
    SplitEightWords("xcodebuild", "-workspace", "App.xcworkspace", "-scheme", "App",
                    "-configuration", buildType, "-derivedDataPath", ' ');
  }

  /** The arguments given to `xcrun`: the template's tokens, then the packaged
      output directory, then the extra command-line arguments. */
  function IosArgs(debug: bool, packagedDistDir: string, extraArgs: seq<string>): (r: seq<string>)
    ensures |r| == 9 + |extraArgs|
    ensures r[6] == XcodeConfiguration(debug) && r[8] == packagedDistDir
    ensures r[9..] == extraArgs
  {
    XcodebuildTokens(XcodeConfiguration(debug)) + [packagedDistDir] + extraArgs
  }

  /** The `xcrun` arguments are what splitting the template on spaces gives,
      followed by the packaged output directory and the extra arguments: nine
      fixed arguments, `xcodebuild` first, the configuration seventh (`debug`
      exactly in a debug build), the directory ninth. */
  lemma IosArgsFromTemplate(debug: bool, packagedDistDir: string, extraArgs: seq<string>)
    ensures var r := IosArgs(debug, packagedDistDir, extraArgs);
      && r == Text.Split(XcodebuildCommandLine(XcodeConfiguration(debug)), ' ') + [packagedDistDir] + extraArgs
      && |r| == 9 + |extraArgs| && r[0] == "xcodebuild" && r[8] == packagedDistDir
      && (r[6] == "debug" <==> debug)
      && r[9..] == extraArgs
  {
    XcodebuildCommandLineSplits(XcodeConfiguration(debug));
  }

  /** The Gradle wrapper to run: the `.bat` script exactly on Windows, the
      shell script elsewhere. */
  function GradleBin(platform: string): (r: string)
    ensures r == "./gradlew.bat" <==> platform == "win32"
    ensures platform != "win32" ==> r == "./gradlew"
  {
    "./gradlew" + (if platform == "win32" then ".bat" else "")
  }

  /** The arguments given to the Gradle wrapper: the assemble task chosen by the
      debug flag, then the extra command-line arguments. */
  function GradleArgs(debug: bool, extraArgs: seq<string>): (r: seq<string>)
    ensures |r| == 1 + |extraArgs| && r[1..] == extraArgs
    ensures r[0] == "assembleDebug" <==> debug
    ensures !debug ==> r[0] == "assembleRelease"
  {
    ["assemble" + (if debug then "Debug" else "Release")] + extraArgs
  }

  /** Where Gradle leaves its outputs, relative to the Capacitor directory. */
  const AndroidOutputs: string := "android/app/build/outputs"

  /** That path has the four components `android`, `app`, `build` and `outputs`,
      so it is relative and names the outputs folder of the Android app module. */
  lemma AndroidOutputsComponents()
    ensures Text.Split(AndroidOutputs, '/') == ["android", "app", "build", "outputs"]
  {
    var parts := ["android", "app", "build", "outputs"];
    assert Text.JoinWith(parts[3..], '/') == "outputs";
    assert Text.JoinWith(parts[2..], '/') == "build/outputs";
    assert Text.JoinWith(parts[1..], '/') == "app/build/outputs";
    assert Text.JoinWith(parts, '/') == AndroidOutputs;
    Text.SplitJoin(parts, '/');
  }
}
