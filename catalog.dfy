/**
 * The directory entries the browser shows (the `FileInfo` record of config/config.go and
 * main.go) and the two small classifiers over them: `GetFileType` (utils/utils.go and its
 * twin `getFileType` in main.go) and `getPermissionChar` (main.go).
 */
module Catalog {
  import opened Wrappers
  import opened Screen

  /** Go's `int64`. */
  newtype int64 = x: int | -0x8000_0000_0000_0000 <= x < 0x8000_0000_0000_0000

  /**
   * One listed entry. Only the fields the core reads are kept; the rest of the Go record
   * (symlink target, mount point, SELinux context, inode, link count, creation time,
   * executable bit) is display metadata the core passes through untouched.
   */
  datatype FileInfo = FileInfo(
    name: string,
    permissions: string,
    owner: string,
    size: int64,
    fileType: string,
    lastAccessTime: string,
    gitRepoStatus: string)

  /**
   * One result of `os.ReadDir`: `info` is `None` when `file.Info()` fails, and `isDir`
   * is what `info.IsDir()` answers.
   */
  datatype DirEntry = DirEntry(info: Option<FileInfo>, isDir: bool)

  // Go's os.FileMode bits (io/fs), as a 32-bit word.
  type FileMode = bv32
  const ModeDir: FileMode        := 0x8000_0000
  const ModeSymlink: FileMode    := 0x0800_0000
  const ModeDevice: FileMode     := 0x0400_0000
  const ModeNamedPipe: FileMode  := 0x0200_0000
  const ModeSocket: FileMode     := 0x0100_0000
  const ModeCharDevice: FileMode := 0x0020_0000
  const ModeIrregular: FileMode  := 0x0008_0000
  /** The type bits: a mode with none of them set is a regular file. */
  const ModeType: FileMode :=
    ModeDir | ModeSymlink | ModeNamedPipe | ModeSocket | ModeDevice | ModeCharDevice | ModeIrregular

  const FileTypeLabels: seq<string> :=
    ["Regular File", "Directory", "Symlink", "Named Pipe", "Socket", "Device", "Unknown"]

  /**
   * The label of a file mode: the cases are tried in the order regular, directory,
   * symlink, named pipe, socket, device, so a mode with several type bits gets the first.
   * "Unknown" is left for modes whose only type bits are char-device or irregular.
   */
  function GetFileType(mode: FileMode): (r: string)
    ensures r in FileTypeLabels
    ensures r == "Regular File" <==> mode & ModeType == 0
    ensures r == "Directory" <==> mode & ModeDir != 0
    ensures r == "Symlink" <==> mode & ModeDir == 0 && mode & ModeSymlink != 0
    ensures r == "Named Pipe" <==> mode & (ModeDir | ModeSymlink) == 0 && mode & ModeNamedPipe != 0
    ensures r == "Socket" <==> mode & (ModeDir | ModeSymlink | ModeNamedPipe) == 0 && mode & ModeSocket != 0
    ensures r == "Device" <==>
      mode & (ModeDir | ModeSymlink | ModeNamedPipe | ModeSocket) == 0 && mode & ModeDevice != 0
    ensures r == "Unknown" <==>
      mode & ModeType != 0 &&
      mode & (ModeDir | ModeSymlink | ModeNamedPipe | ModeSocket | ModeDevice) == 0
  {
    if mode & ModeType == 0 then "Regular File"
    else if mode & ModeDir != 0 then "Directory"
    else if mode & ModeSymlink != 0 then "Symlink"
    else if mode & ModeNamedPipe != 0 then "Named Pipe"
    else if mode & ModeSocket != 0 then "Socket"
    else if mode & ModeDevice != 0 then "Device"
    else "Unknown"
  }

  /**
   * `getPermissionChar`: byte `index` of a permission string such as "-rwxr-xr-x",
   * converted to the rune of that value, or "-" past its end. A negative index makes Go's
   * indexing panic, hence the precondition.
   */
  function PermissionChar(permissions: string, index: int): (r: string)
    requires 0 <= index
    ensures |r| == 1
    ensures index < ByteLen(permissions) ==> r[0] as int == Utf8Bytes(permissions)[index]
    ensures index >= ByteLen(permissions) ==> r == "-"
  {
    var bytes := Utf8Bytes(permissions);
    if index < |bytes| then [bytes[index] as char] else "-"
  }

  /** On the ASCII strings `FileMode.String()` produces, bytes and characters coincide. */
  lemma PermissionCharAscii(permissions: string, index: int)
    requires 0 <= index && IsAscii(permissions)
    ensures index < |permissions| ==> PermissionChar(permissions, index) == [permissions[index]]
    ensures index >= |permissions| ==> PermissionChar(permissions, index) == "-"
  {
    AsciiBytes(permissions, |permissions|);
  }

  /**
   * main.go's info pane slices `Permissions[1:4]`, `[4:7]` and `[7:10]`, which needs at
   * least ten bytes; otherwise the slice expression panics.
   */
  predicate PermissionColumnsDefined(f: FileInfo) { ByteLen(f.permissions) >= 10 }

  /** The Windows listing fills `Permissions` with "N/A", which the slices above cannot take. */
  lemma WindowsPermissionsBreakInfoPane(f: FileInfo)
    requires f.permissions == "N/A"
    ensures !PermissionColumnsDefined(f)
  {
    assert ByteLen(f.permissions) == 3;
  }

  /** A Unix permission string (ASCII, ten characters) can be sliced. */
  lemma {:induction false} UnixPermissionsFitInfoPane(f: FileInfo)
    requires IsAscii(f.permissions) && |f.permissions| >= 10
    ensures PermissionColumnsDefined(f)
  {
    AsciiByteOffset(f.permissions, |f.permissions|);
  }
}
