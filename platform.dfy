/**
 * Platform identification of MrsWatson's platform layer (source/PlatformUtilities.c).
 *
 * The C code selects its behaviour with the preprocessor: the build defines
 * one of the target macros MACOSX, WINDOWS or LINUX, and every `#if` in the
 * file tests them. Here the set of defined macros is a value, BuildConfig,
 * and every function that the preprocessor specialises takes it as a
 * parameter.
 */
module Platform {

  /** The closed enumeration returned by `getPlatformType`. */
  datatype PlatformType = MacOSX | Windows | Linux | Unsupported

  /** Which of the target macros a build defines. */
  datatype BuildConfig = BuildConfig(macosx: bool, windows: bool, linux: bool) {
    /** The build defines exactly one target macro. */
    predicate SingleTarget() {
      (macosx && !windows && !linux) ||
      (!macosx && windows && !linux) ||
      (!macosx && !windows && linux)
    }
  }

  const MacOSXBuild := BuildConfig(true, false, false)
  const WindowsBuild := BuildConfig(false, true, false)
  const LinuxBuild := BuildConfig(false, false, true)

  /**
   * `getPlatformType`: the `#if MACOSX / #elif WINDOWS / #elif LINUX / #else`
   * chain, so the first macro in that order wins when several are defined.
   */
  function GetPlatformType(cfg: BuildConfig): (p: PlatformType)
    ensures p == Unsupported <==> !cfg.macosx && !cfg.windows && !cfg.linux
    ensures p == MacOSX ==> cfg.macosx
    ensures p == Windows ==> cfg.windows
    ensures p == Linux ==> cfg.linux
    ensures cfg.macosx ==> p == MacOSX
    ensures !cfg.macosx && cfg.windows ==> p == Windows
    ensures !cfg.macosx && !cfg.windows && cfg.linux ==> p == Linux
  {
    if cfg.macosx then MacOSX
    else if cfg.windows then Windows
    else if cfg.linux then Linux
    else Unsupported
  }

  /**
   * PATH_DELIMITER: a backslash when WINDOWS is defined, a slash otherwise.
   * It is never the string terminator.
   */
  function PathDelimiter(cfg: BuildConfig): (c: char)
    ensures c == '/' || c == '\\'
    ensures c != '\0'
  {
    if cfg.windows then '\\' else '/'
  }

  /** A single-target build reports exactly the target it was built for. */
  lemma SingleTargetPlatformType(cfg: BuildConfig)
    requires cfg.SingleTarget()
    ensures GetPlatformType(cfg) == MacOSX <==> cfg.macosx
    ensures GetPlatformType(cfg) == Windows <==> cfg.windows
    ensures GetPlatformType(cfg) == Linux <==> cfg.linux
    ensures GetPlatformType(cfg) != Unsupported
  {
  }

  /**
   * The platform identifier and the path delimiter come from the same
   * configuration: unless the build defines both MACOSX and WINDOWS, the
   * delimiter is a backslash exactly when the platform is Windows.
   */
  lemma DelimiterMatchesPlatform(cfg: BuildConfig)
    requires !(cfg.macosx && cfg.windows)
    ensures PathDelimiter(cfg) == '\\' <==> GetPlatformType(cfg) == Windows
    ensures PathDelimiter(cfg) == '/' <==> GetPlatformType(cfg) != Windows
  {
  }

  /** The three supported builds, and a build that defines no target macro. */
  lemma PlatformTypeOfBuilds()
    ensures GetPlatformType(MacOSXBuild) == MacOSX && PathDelimiter(MacOSXBuild) == '/'
    ensures GetPlatformType(WindowsBuild) == Windows && PathDelimiter(WindowsBuild) == '\\'
    ensures GetPlatformType(LinuxBuild) == Linux && PathDelimiter(LinuxBuild) == '/'
    ensures GetPlatformType(BuildConfig(false, false, false)) == Unsupported
  {
  }
}
