# go-file: file kinds and permission modes

A Dafny model of the value types of the Go package `file`
(`file/file.go`), a filesystem-abstraction layer whose interfaces
(Cabinet, Handle, File, Dir) are implemented by separate backends.
The executable logic of that file is modelled:

- **Kind** — the closed enumeration of entry types (regular file, directory,
  symlink, fifo, socket, block device, character device), each with a
  one-letter rendering and a Go-syntax rendering. Module `FileKind`
  (`kind.dfy`).
- **Mode** — the POSIX permission mask: a 16-bit field from which
  `NewModeFromBits` keeps only the nine bits of octal 0777, and which renders
  as the nine-character `rwxrwxrwx` form. Module `FileMode` (`mode.dfy`).
  The Go field is `uint16` and is modelled as `bv16`. `Mode.String` keeps
  the source's shape: a method that fills a nine-character array in a loop,
  from the most significant permission bit to the least. It is proved equal
  to `Mode.Render`, a function that states the same text as three
  owner/group/other triads.
- **Metadata** — the attribute record (permissions, owner and group ids,
  size, link target, device numbers) as a plain datatype with no behaviour.
  Module `FileMetadata` (`metadata.dfy`).

`wrappers.dfy` holds the `Option` type used by the inverse letter table.

The one-letter table is inverted by `FileKind.FromLetter`. This inverse is a
specification device: it shows that the letters identify the kinds. The
Go-syntax rendering is kept as written: the block-device member renders as
`file.Kind_Device`, which is not the name of its type `Kind_BlockDevice`.
`GoStringNamesType` states that this is the only such member.

Octal constants are written in hexadecimal in the Dafny: 0777 = 0x1FF,
0755 = 0x1ED, 0644 = 0x1A4, 0664 = 0x1B4.

## Model

| member | source | states |
|---|---|---|
| `FileKind.Kind.String` | file/file.go:84-90 | every kind renders as exactly one character |
| `FileKind.LetterRoundTrip` | file/file.go:84-90 | reading a kind's letter back through the inverse table gives that kind |
| `FileKind.FromLetterSound` | file/file.go:84-90 | exactly the letters f, d, l, p, s, b, c are renderings of a kind, and each is the rendering of the kind it reads back as |
| `FileKind.StringInjective` | file/file.go:84-90 | two kinds have the same letter if and only if they are the same kind |
| `FileKind.Kind.GoString` | file/file.go:92-98 | every Go-syntax rendering starts with the qualifier `file.Kind_` and has more after it |
| `FileKind.GoStringInjective` | file/file.go:92-98 | two kinds have the same Go-syntax rendering if and only if they are the same kind |
| `FileKind.GoStringNamesType` | file/file.go:92-98 | the Go-syntax rendering is `file.` plus the declared type name exactly for the six kinds other than the block device, which renders as `file.Kind_Device` |
| `FileMode.NewModeFromBits` | file/file.go:206-208 | a constructed mode never stores a value of 512 or more |
| `FileMode.NewModeRaw` | file/file.go:206-212 | the stored bits of a constructed mode keep each of the nine permission bits of the input and clear every bit from 9 to 15, for every 16-bit input |
| `FileMode.NewModeKeepsPermBits` | file/file.go:206-212 | an input below 512 is stored unchanged |
| `FileMode.NewModeIdempotent` | file/file.go:206-211 | building a mode from the stored bits of a constructed mode gives the same mode |
| `FileMode.Mode.Render` | file/file.go:213-224 | the rendering has exactly nine characters |
| `FileMode.Mode.String` | file/file.go:213-224 | the loop over the nine-character buffer yields nine characters, position i is the letter of `rwxrwxrwx` when bit 8-i is set and `-` otherwise, and the result equals the owner/group/other triad rendering |
| `FileMode.ShiftTest` | file/file.go:217 | the source's test, one shifted left by j and masked with the field, is non-zero exactly when bit j is set |
| `FileMode.RenderAt` | file/file.go:215-221 | position i of the triad rendering is the letter of `rwxrwxrwx` at i when bit 8-i is set and `-` otherwise, so owner r/w/x come first, then group, then other |
| `FileMode.RenderAlphabet` | file/file.go:214-223 | every character of a rendering is `-`, `r`, `w` or `x`, and a letter only appears at a position of its own kind |
| `FileMode.RenderInjective` | file/file.go:216-221 | two modes render alike if and only if their nine permission bits agree |
| `FileMode.RenderIgnoresHighBits` | file/file.go:206-221 | masking a value does not change its rendering: bits above 0777 never show |
| `FileMode.ConstructedRenderInjective` | file/file.go:206-221 | two constructed modes are equal if and only if they render alike |
| `FileMode.KnownRenderings` | file/mode_test.go:10-14 | 0777, 0755, 0644, 0664 and 0 render as `rwxrwxrwx`, `rwxr-xr-x`, `rw-r--r--`, `rw-rw-r--` and `---------` |

## Left out

- The interfaces `Cabinet`, `Handle`, `File`, `Dir`, `DirItr`, `Xattrs` and `Openmode` (file/file.go:34-157, 185-189): they declare method sets only, with no bodies to model. The panics on a wrong kind that `Handle.File` and `Handle.Dir` promise belong to implementations that are not part of this model.
- The sandbox decorator (file/impl/sandbox/sandbox.go): the package holds a doc comment and no code, so there is no path-resolution algorithm to model.
- The in-memory backend (file/impl/memfs/memfs.go): a doc comment only.
- Error formatting conventions (file/errors.go): comments only, no types or functions.
- The `Ctime`, `Mtime` and `Atime` fields of `Metadata`: they are Go `time.Time` values; the record keeps the other fields.
- `io.Reader`, `io.Writer`, `io.ReaderAt`, `io.Seeker` and `io.Closer`: library interfaces whose I/O is not visible in the source.
- The unexported marker methods `_Kind()` (file/file.go:76-82): empty bodies that only close the Go interface; the Dafny datatype is closed by construction.
- `FileMode.NewModeRaw`: states the mask bit by bit rather than as the integer identity `Raw() == b mod 512`, because Dafny's conversion from bit-vectors to integers is too costly for the verifier here.
