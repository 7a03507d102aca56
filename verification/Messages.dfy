/** Messages as objects: closing, moving, copying and counting references in place. */
module Messages {
  import opened Wire
  import M = MsgModel

  /** A content block. */
  class Block {
    var refcnt: int
    var frees: nat

    constructor ()
      ensures View() == M.Content(0, 0)
    {
      refcnt, frees := 0, 0;
    }

    ghost function View(): M.Content
      reads this
    {
      M.Content(refcnt, frees)
    }

    /** Subtract references; true when some are left. */
    method Sub(n: int) returns (left: bool)
      modifies this
      ensures refcnt == old(refcnt) - n && frees == old(frees) && left == (refcnt != 0)
    {
      refcnt := refcnt - n;
      left := refcnt != 0;
    }

    method Free()
      modifies this
      ensures View() == M.Freed(old(View()))
    {
      frees := frees + 1;
    }
  }

  /** The flags a user sees; that content is shared is kept apart. */
  datatype Flags = Flags(more: bool, identity: bool)

  const NO_FLAGS := Flags(false, false)

  datatype Kind = Invalid | Small | Delimiter | Long

  class Message {
    var kind: Kind
    var block: Block?
    var shared: bool
    var flags: Flags
    /** The bytes of a small message, which holds them itself. */
    var small: seq<Byte>

    predicate Valid()
      reads this
    {
      kind == Long <==> block != null
    }

    /** The message as a value; the block it refers to is known from `block`. */
    ghost function View(): M.Msg
      reads this
    {
      match kind
      case Invalid => M.Invalid
      case Small => M.Small
      case Delimiter => M.Delimiter
      case Long => M.Long(0, shared)
    }

    constructor ()
      ensures Valid() && kind == Invalid
    {
      kind, block, shared := Invalid, null, false;
      flags, small := NO_FLAGS, [];
    }

    method Init()
      modifies this
      ensures Valid() && View() == M.Small && flags == NO_FLAGS && small == []
    {
      kind, block, shared := Small, null, false;
      flags, small := NO_FLAGS, [];
    }

    method InitLong()
      modifies this
      ensures Valid() && View() == M.Long(0, false) && fresh(block) && block.View() == M.Content(0, 0) && flags == NO_FLAGS
    {
      var b := new Block();
      kind, block, shared := Long, b, false;
      flags := NO_FLAGS;
    }

    method InitDelimiter()
      modifies this
      ensures Valid() && View() == M.Delimiter && flags == NO_FLAGS
    {
      kind, block, shared := Delimiter, null, false;
      flags := NO_FLAGS;
    }

    /** Fails on an invalid message; otherwise gives up one reference and makes the message invalid. */
    method Close() returns (ok: bool)
      requires Valid()
      modifies this, block
      ensures Valid() && ok == (old(kind) != Invalid) && kind == Invalid
      ensures old(block) != null ==> old(block).View() == M.Released(old(View()), old(block.View()))
    {
      if kind == Invalid {
        return false;
      }
      if kind == Long {
        if !shared {
          block.Free();
        } else {
          var left := block.Sub(1);
          if !left {
            block.Free();
          }
        }
      }
      kind, block := Invalid, null;
      ok := true;
    }

    /** Take over another message; both have to be valid. */
    method Move(src: Message) returns (ok: bool)
      requires Valid() && src.Valid() && src != this
      modifies this, src, block
      ensures Valid() && src.Valid() && ok == (old(kind) != Invalid && old(src.kind) != Invalid)
      ensures ok ==> View() == old(src.View()) && block == old(src.block) && src.View() == M.Small
      ensures ok ==> flags == old(src.flags) && small == old(src.small) && src.flags == NO_FLAGS && src.small == []
      ensures ok && old(block) != null ==> old(block).View() == M.Released(old(View()), old(block.View()))
      ensures !ok ==> View() == old(View()) && src.View() == old(src.View()) && block == old(block)
      ensures !ok && old(block) != null ==> old(block).View() == old(block.View())
    {
      if src.kind == Invalid {
        return false;
      }
      ok := Close();
      if !ok {
        return;
      }
      kind, block, shared := src.kind, src.block, src.shared;
      flags, small := src.flags, src.small;
      src.Init();
    }

    /** Share the content of another message; both have to be valid. */
    method Copy(src: Message) returns (ok: bool)
      requires Valid() && src.Valid() && src != this
      modifies this, src, block, src.block
      ensures Valid() && src.Valid() && ok == (old(kind) != Invalid && old(src.kind) != Invalid)
      ensures ok ==> View() == src.View() && block == src.block == old(src.block)
      ensures ok ==> flags == src.flags == old(src.flags) && small == src.small == old(src.small)
      ensures ok && src.block == null ==> src.View() == old(src.View())
      ensures ok && src.block != null && old(block) != src.block ==>
        (src.View(), src.block.View()) == M.Counted(old(src.View()), old(src.block.View()), 1)
      ensures ok && src.block != null && old(block) == src.block ==>
        (src.View(), src.block.View())
          == M.Counted(old(src.View()), M.Released(old(View()), old(src.block.View())), 1)
      ensures ok && old(block) != null && old(block) != src.block ==>
        old(block).View() == M.Released(old(View()), old(block.View()))
      ensures !ok ==> View() == old(View()) && src.View() == old(src.View()) && block == old(block)
    {
      if src.kind == Invalid {
        return false;
      }
      ok := Close();
      if !ok {
        return;
      }
      if src.kind == Long {
        if src.shared {
          src.block.refcnt := src.block.refcnt + 1;
        } else {
          src.shared := true;
          src.block.refcnt := 2;
        }
      }
      kind, block, shared := src.kind, src.block, src.shared;
      flags, small := src.flags, src.small;
    }

    /** After this the message may be duplicated bit by bit `refs` times. */
    method AddRefs(refs: nat)
      requires Valid()
      modifies this, block
      ensures Valid() && block == old(block) && kind == old(kind) && flags == old(flags) && small == old(small)
      ensures block != null ==> (View(), block.View()) == M.Counted(old(View()), old(block.View()), refs)
      ensures block == null ==> View() == old(View())
    {
      if refs == 0 {
        return;
      }
      if kind == Long {
        if shared {
          block.refcnt := block.refcnt + refs;
        } else {
          block.refcnt := refs + 1;
          shared := true;
        }
      }
    }

    /** Give back references; false when the content is gone. */
    method RmRefs(refs: nat) returns (left: bool)
      requires Valid()
      modifies this, block
      ensures Valid()
      ensures old(block) != null ==>
        && old(block).View() == M.Removed(old(View()), old(block.View()), refs)
        && left == (old(block).frees == old(block.frees))
      ensures old(block) == null ==> left == (refs == 0)
      ensures if refs > 0 && (old(kind) != Long || !old(shared)) then kind == Invalid
              else View() == old(View()) && block == old(block) && flags == old(flags) && small == old(small)
    {
      if refs == 0 {
        return true;
      }
      if kind != Long || !shared {
        var _ := Close();
        return false;
      }
      left := block.Sub(refs);
      if !left {
        block.Free();
      }
    }
  }
}
