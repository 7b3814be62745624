/** The closed enumeration of file kinds of package `file`, with the
    one-letter rendering (as `find -type` spells it) and the Go-syntax
    rendering of each member. Hardlinks are not a kind. */
module FileKind {
  import opened Wrappers

  /** The package qualifier every Go-syntax rendering starts with. */
  const Qualifier: string := "file.Kind_"

  datatype Kind = File | Dir | Symlink | Fifo | Socket | BlockDevice | CharDevice {

    /** The one-letter rendering of the kind. */
    function String(): (s: string)
      ensures |s| == 1
    {
      match this
      case File => "f"
      case Dir => "d"
      case Symlink => "l"
      case Fifo => "p"
      case Socket => "s"
      case BlockDevice => "b"
      case CharDevice => "c"
    }

    /** The Go-syntax rendering of the kind. As written, the block-device
        member renders as `file.Kind_Device`, not as the name of its type. */
    function GoString(): (s: string)
      ensures |s| > |Qualifier| && s[..|Qualifier|] == Qualifier
    {
      match this
      case File => "file.Kind_File"
      case Dir => "file.Kind_Dir"
      case Symlink => "file.Kind_Symlink"
      case Fifo => "file.Kind_Fifo"
      case Socket => "file.Kind_Socket"
      case BlockDevice => "file.Kind_Device"
      case CharDevice => "file.Kind_CharDevice"
    }
  }

  /** The kind a one-letter rendering stands for, if any: the inverse table
      of Kind.String. */
  function FromLetter(c: char): Option<Kind>
  {
    match c
    case 'f' => Some(File)
    case 'd' => Some(Dir)
    case 'l' => Some(Symlink)
    case 'p' => Some(Fifo)
    case 's' => Some(Socket)
    case 'b' => Some(BlockDevice)
    case 'c' => Some(CharDevice)
    case _ => None
  }

  /** The name of the Go type declared for each member of the enumeration. */
  function TypeName(k: Kind): string
  {
    match k
    case File => "Kind_File"
    case Dir => "Kind_Dir"
    case Symlink => "Kind_Symlink"
    case Fifo => "Kind_Fifo"
    case Socket => "Kind_Socket"
    case BlockDevice => "Kind_BlockDevice"
    case CharDevice => "Kind_CharDevice"
  }

  /** Reading back the letter of a kind gives that kind. */
  lemma LetterRoundTrip(k: Kind)
    ensures FromLetter(k.String()[0]) == Some(k)
  {
  }

  /** A letter read back as a kind is that kind's rendering, so exactly the
      seven letters f, d, l, p, s, b, c are renderings. */
  lemma FromLetterSound(c: char)
    ensures FromLetter(c).Some? <==> c in {'f', 'd', 'l', 'p', 's', 'b', 'c'}
    ensures FromLetter(c).Some? ==> FromLetter(c).value.String() == [c]
  {
  }

  /** Distinct kinds have distinct letters. */
  lemma StringInjective(a: Kind, b: Kind)
    ensures a.String() == b.String() <==> a == b
  {
  }

  /** Distinct kinds have distinct Go-syntax renderings. */
  lemma GoStringInjective(a: Kind, b: Kind)
    ensures a.GoString() == b.GoString() <==> a == b
  {
  }

  /** The Go-syntax rendering is the qualifier `file.` followed by the
      member's type name for every kind except the block device. */
  lemma GoStringNamesType(k: Kind)
    ensures k.GoString() == "file." + TypeName(k) <==> k != BlockDevice
    ensures k == BlockDevice ==> k.GoString() == "file.Kind_Device"
  {
  }
}
