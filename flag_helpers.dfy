/**
 * The flag helpers of cmd/flags/helpers.go: a flag is looked up under its
 * name in kebab case, and a value written "@<path>" or "file://<path>"
 * stands for the contents of that file.
 *
 * The strcase library's `ToSnake`, `filepath.Join`, the working directory
 * and the file system are parameters: files are a map from full path to
 * contents. Paths are Unix paths. A Go panic (a flag that does not exist, a
 * file that cannot be read) is an `Err`.
 */
module FlagHelpers {
  import opened Wrappers
  import opened Text

  /** The name a flag is looked up under (line 14): snake case with "_" made "-". */
  function FlagName(toSnake: string -> string, name: string): (r: string)
    ensures '_' !in r && |r| == |toSnake(name)|
  {
    var r := ReplaceChar(toSnake(name), '_', '-');
    assert forall i :: 0 <= i < |r| ==> r[i] != '_';
    r
  }

  /** The flag name as snake case writes it, with only "_" changed. */
  lemma FlagNameReplacesUnderscores(toSnake: string -> string, name: string)
    ensures forall i :: 0 <= i < |toSnake(name)| ==>
              FlagName(toSnake, name)[i] == (if toSnake(name)[i] == '_' then '-' else toSnake(name)[i])
  {
  }

  /** `filepath.IsAbs` on Unix. */
  predicate IsAbs(path: string) {
    HasPrefix(path, "/")
  }

  /** The path `readFile` opens (lines 27-38): an absolute path as it is, else joined to the working directory. */
  function FullPath(join: (string, string) -> string, wd: string, path: string): string {
    if IsAbs(path) then path else join(wd, path)
  }

  /** `readFile` (lines 27-45): the file's contents, or a panic when it cannot be read. */
  function ReadFile(files: map<string, string>, join: (string, string) -> string, wd: string, path: string): Result<string> {
    var full := FullPath(join, wd, path);
    if full in files then Ok(files[full]) else Err("open " + full + ": no such file or directory")
  }

  /** `ReadStringFlag` (lines 13-25) for a flag set holding `flags` by name. */
  function ReadStringFlag(flags: map<string, string>, files: map<string, string>, toSnake: string -> string,
                          join: (string, string) -> string, wd: string, name: string): Result<string> {
    var key := FlagName(toSnake, name);
    if key !in flags then Err("cant find " + key)
    else
      var value := flags[key];
      if HasPrefix(value, "@") then ReadFile(files, join, wd, value[1..])
      else if HasPrefix(value, "file://") then ReadFile(files, join, wd, value[7..])
      else Ok(value)
  }

  /** A value with neither prefix is the flag's value itself. */
  lemma PlainValue(flags: map<string, string>, files: map<string, string>, toSnake: string -> string,
                   join: (string, string) -> string, wd: string, name: string)
    requires FlagName(toSnake, name) in flags
    requires !HasPrefix(flags[FlagName(toSnake, name)], "@") && !HasPrefix(flags[FlagName(toSnake, name)], "file://")
    ensures ReadStringFlag(flags, files, toSnake, join, wd, name) == Ok(flags[FlagName(toSnake, name)])
  {
  }

  /** "@<path>" and "file://<path>" both read the file at `path`. */
  lemma FileValue(flags: map<string, string>, files: map<string, string>, toSnake: string -> string,
                  join: (string, string) -> string, wd: string, name: string, path: string)
    ensures var key := FlagName(toSnake, name);
            ReadStringFlag(flags[key := "@" + path], files, toSnake, join, wd, name) == ReadFile(files, join, wd, path) &&
            ReadStringFlag(flags[key := "file://" + path], files, toSnake, join, wd, name) == ReadFile(files, join, wd, path)
  {
    var at := "@" + path;
    assert HasPrefix(at, "@") && at[1..] == path;
    var scheme := "file://" + path;
    assert scheme[0] == 'f';
    assert HasPrefix(scheme, "file://") && scheme[7..] == path;
  }

  /** "@" is checked first: "@file://<path>" names the relative file "file://<path>". */
  lemma AtBeforeScheme(flags: map<string, string>, files: map<string, string>, toSnake: string -> string,
                       join: (string, string) -> string, wd: string, name: string, path: string)
    ensures var key := FlagName(toSnake, name);
            ReadStringFlag(flags[key := "@file://" + path], files, toSnake, join, wd, name) ==
              ReadFile(files, join, wd, "file://" + path) &&
            FullPath(join, wd, "file://" + path) == join(wd, "file://" + path)
  {
    var v := "@file://" + path;
    assert HasPrefix(v, "@") && v[1..] == "file://" + path;
    assert ("file://" + path)[0] == 'f';
  }

  /** A missing flag panics (lines 15-18: the message is printed, then the nil lookup is dereferenced). */
  lemma MissingFlag(flags: map<string, string>, files: map<string, string>, toSnake: string -> string,
                    join: (string, string) -> string, wd: string, name: string)
    requires FlagName(toSnake, name) !in flags
    ensures ReadStringFlag(flags, files, toSnake, join, wd, name).Err?
  {
  }
}
