/** The plugin's class autoloader: the closure it registers with
    spl_autoload_register, which maps a class name under the PluginName\
    namespace to a PHP file below the plugin directory, following section 2,
    item 3 of PSR-4 (Autoloader). File existence and esc_html are parameters. */
module Autoloader {
  import opened Php

  /** The project's namespace prefix, with its trailing namespace separator. */
  const Prefix := "PluginName\\"

  /** What the closure does with a class name. */
  datatype Outcome =
    | Declined               // returns, leaving the class to the next autoloader
    | Require(file: string)  // require_once of the file
    | Exit(message: string)  // exit with a message

  /** strncmp(a, b, n) == 0: the first n bytes agree, a shorter string only
      agreeing with one of the same length. */
  predicate StrncmpEqual(a: string, b: string, n: nat)
  {
    var la := if |a| < n then |a| else n;
    var lb := if |b| < n then |b| else n;
    la == lb && a[..la] == b[..lb]
  }

  /** The prefix test of the closure is exactly "the class name starts with PluginName\". */
  lemma PrefixTest(className: string)
    ensures StrncmpEqual(Prefix, className, |Prefix|) <==> Prefix <= className
  {
    if Prefix <= className {
      assert className[..|Prefix|] == Prefix;
    }
  }

  /** str_replace(search, replace, s) for one-character search and replacement. */
  function StrReplace(search: char, replace: char, s: string): (r: string)
    ensures |r| == |s|
    ensures forall i :: 0 <= i < |s| ==> r[i] == (if s[i] == search then replace else s[i])
    ensures search != replace ==> search !in r
  {
    if s == [] then [] else [if s[0] == search then replace else s[0]] + StrReplace(search, replace, s[1..])
  }

  /** The namespace separators of a relative class name become directory separators. */
  function ToPath(relative: string): string
  {
    StrReplace('\\', '/', relative)
  }

  /** The way back from a path segment to a relative class name. */
  function ToNamespace(segment: string): string
  {
    StrReplace('/', '\\', segment)
  }

  /** Replacing a character that does not occur, then replacing back, is the identity. */
  lemma {:induction false} StrReplaceRoundTrip(search: char, replace: char, s: string)
    requires replace !in s
    ensures StrReplace(replace, search, StrReplace(search, replace, s)) == s
  {
    if s != [] {
      StrReplaceRoundTrip(search, replace, s[1..]);
      assert s == [s[0]] + s[1..];
    }
  }

  /** __DIR__ . '/' */
  function BaseDir(dir: string): string
  {
    dir + "/"
  }

  /** The relative class name: the class name without the prefix. */
  function RelativeClass(className: string): (relative: string)
    requires Prefix <= className
    ensures Prefix + relative == className
    ensures |relative| == |className| - 11
  {
    className[|Prefix|..]
  }

  /** The file the closure requires for a relative class name. */
  function ClassFile(dir: string, relative: string): (file: string)
    ensures |file| == |BaseDir(dir)| + |relative| + 4
    ensures file[..|BaseDir(dir)|] == BaseDir(dir)
    ensures file[|file| - 4..] == ".php"
    ensures '\\' !in file[|BaseDir(dir)|..|file| - 4]
    ensures forall i :: 0 <= i < |relative| ==>
              file[|BaseDir(dir)| + i] == (if relative[i] == '\\' then '/' else relative[i])
  {
    var file := BaseDir(dir) + ToPath(relative) + ".php";
    assert file[|BaseDir(dir)|..|file| - 4] == ToPath(relative);
    file
  }

  /** The autoload closure; __DIR__ is dir. */
  function Autoload(dir: string, className: string, fileExists: string -> bool, escHtml: string -> string): (o: Outcome)
    ensures o.Declined? <==> !(Prefix <= className)
    ensures Prefix <= className ==>
              (o.Require? <==> fileExists(ClassFile(dir, RelativeClass(className))))
    ensures o.Require? ==> o.file == ClassFile(dir, RelativeClass(className))
    ensures o.Exit? ==> o.message == escHtml("The file " + className + ".php could not be found!")
  {
    var len := |Prefix|;
    PrefixTest(className);
    if !StrncmpEqual(Prefix, className, len) then
      Declined
    else
      var file := ClassFile(dir, RelativeClass(className));
      if fileExists(file) then Require(file)
      else Exit(escHtml("The file " + className + ".php could not be found!"))
  }

  /** The class a file below the plugin directory would hold: the partner of ClassFile. */
  function ClassForFile(dir: string, file: string): Option<string>
  {
    var base := BaseDir(dir);
    if |file| >= |base| + 4 && file[..|base|] == base && file[|file| - 4..] == ".php" then
      Some(Prefix + ToNamespace(file[|base|..|file| - 4]))
    else
      None
  }

  /** A class name without '/' after the prefix is recovered from the file it
      maps to, so no two such classes share a file. */
  lemma ClassFileInvertible(dir: string, className: string)
    requires Prefix <= className && '/' !in RelativeClass(className)
    ensures ClassForFile(dir, ClassFile(dir, RelativeClass(className))) == Some(className)
  {
    var relative := RelativeClass(className);
    var file := ClassFile(dir, relative);
    assert file == BaseDir(dir) + ToPath(relative) + ".php";
    assert file[|BaseDir(dir)|..|file| - 4] == ToPath(relative);
    StrReplaceRoundTrip('\\', '/', relative);
  }

  /** Every file named <dir>/<path>.php with no '\' in <path> is the one
      the closure loads for the class ClassForFile names. */
  lemma ClassForFileInvertible(dir: string, file: string)
    requires ClassForFile(dir, file).Some?
    requires '\\' !in file[|BaseDir(dir)|..|file| - 4]
    ensures Prefix <= ClassForFile(dir, file).value
    ensures ClassFile(dir, RelativeClass(ClassForFile(dir, file).value)) == file
  {
    var base := BaseDir(dir);
    var middle := file[|base|..|file| - 4];
    var className := Prefix + ToNamespace(middle);
    assert className[|Prefix|..] == ToNamespace(middle);
    StrReplaceRoundTrip('/', '\\', middle);
    assert file == base + middle + ".php";
  }

  /** A '/' in the class name is not told apart from '\': two classes, one file. */
  lemma SlashAndBackslashShareFile(dir: string)
    ensures ClassFile(dir, "Admin/Settings") == ClassFile(dir, "Admin\\Settings")
  {
    assert ToPath("Admin/Settings") == ToPath("Admin\\Settings");
  }
}
