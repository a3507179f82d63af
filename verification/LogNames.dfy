/** The names a rotated log file uses: itself, its numbered backups, and its counter record. */
module LogNames {
  import Decimal

  const INFO := "logInfo"

  /** Position of the last occurrence of a character, -1 when there is none. */
  function LastOf(s: string, c: char): (i: int)
    ensures -1 <= i < |s|
    ensures i >= 0 ==> s[i] == c
    ensures forall j :: i < j < |s| ==> s[j] != c
  {
    if s == [] then -1
    else if s[|s| - 1] == c then |s| - 1
    else LastOf(s[..|s| - 1], c)
  }

  /** The counter record sits beside the log: its extension replaces the log's, if the file name has one. */
  function InfoPath(path: string): string {
    var dot, slash := LastOf(path, '.'), LastOf(path, '/');
    if dot < 0 || (slash >= 0 && dot < slash) then path + "." + INFO else path[..dot + 1] + INFO
  }

  /** Backups are numbered from 0; a number misread from a damaged record may also be negative. */
  function BackupName(path: string, k: int): string {
    path + "-" + Decimal.PrintInt(k)
  }

  ghost predicate EndsWith(s: string, t: string) {
    |t| <= |s| && s[|s| - |t|..] == t
  }

  lemma BackupNameInjective(path: string, j: int, k: int)
    requires BackupName(path, j) == BackupName(path, k)
    ensures j == k
  {
    assert BackupName(path, j)[|path| + 1..] == Decimal.PrintInt(j);
    assert BackupName(path, k)[|path| + 1..] == Decimal.PrintInt(k);
    Decimal.PrintIntInjective(j, k);
  }

  /** No backup is ever called like the log or like its counter record. */
  lemma NamesApart(path: string, k: int)
    ensures BackupName(path, k) != path && BackupName(path, k) != InfoPath(path)
  {
    var b, i := BackupName(path, k), InfoPath(path);
    assert Decimal.IsDigit(b[|b| - 1]) by {
      assert b[|b| - 1] == Decimal.PrintInt(k)[|Decimal.PrintInt(k)| - 1];
    }
    assert i[|i| - 1] == INFO[|INFO| - 1] == 'o';
  }

  /** The counter record is the log file itself exactly when the log is named `.logInfo` at its end. */
  lemma InfoApartIff(path: string)
    ensures InfoPath(path) == path <==> EndsWith(path, "." + INFO)
  {
    var dot, slash := LastOf(path, '.'), LastOf(path, '/');
    if EndsWith(path, "." + INFO) {
      var at := |path| - 8;
      assert path[at..] == "." + INFO;
      assert path[at] == '.';
      forall j | at < j < |path| ensures path[j] != '.' && path[j] != '/' {
        assert path[j] == ("." + INFO)[j - at];
      }
      assert dot == at;
      assert path[at + 1..] == INFO;
      assert path == path[..at + 1] + path[at + 1..];
    }
  }

  /** The record's extension replaces one of the file's own name. */
  lemma InfoPathOfExtended(stem: string, extension: string)
    requires '.' !in extension && '/' !in extension
    ensures InfoPath(stem + "." + extension) == stem + ".logInfo"
  {
    var path := stem + "." + extension;
    assert path[|stem|] == '.' && path[..|stem| + 1] == stem + ".";
    forall j | |stem| < j < |path| ensures path[j] != '.' && path[j] != '/' {
      assert path[j] == extension[j - |stem| - 1];
    }
    assert LastOf(path, '.') == |stem|;
    assert LastOf(path, '/') < |stem|;
    assert stem + "." + "logInfo" == stem + ".logInfo";
    hide LastOf;
  }

  /** A file without one, whatever its directories are called, gets it appended; `cut` is where its own name begins. */
  lemma InfoPathOfPlain(path: string, cut: nat)
    requires cut <= |path| && (cut == 0 || path[cut - 1] == '/')
    requires forall j :: cut <= j < |path| ==> path[j] != '.'
    ensures InfoPath(path) == path + ".logInfo"
  {
    hide LastOf;
    assert path + "." + "logInfo" == path + ".logInfo";
  }

  lemma BackupNameIs(path: string, k: int)
    ensures BackupName(path, k) == if k >= 0 then path + "-" + Decimal.Print(k) else path + "-" + ("-" + Decimal.Print(-k))
  {
  }
}
