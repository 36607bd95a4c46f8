/** The migration's control panel: it switches the pool's pattern and starts validators
    whose base is the side the pool reads from. */
module MigrationScheduler {
  import opened ConnPool
  import opened DoubleWrite
  import opened Validation
  import opened Fixing

  class Scheduler {
    const src: Database
    const dst: Database
    const pool: DoubleWritePool
    const producer: Producer
    var pattern: Pattern

    ghost predicate Valid()
      reads this, pool
    {
      pool.Valid() && pool.src == src && pool.dst == dst && !pattern.Unknown?
    }

    function Store(side: Side): Database {
      if side == Src then src else dst
    }

    // The two patterns a switch must keep together.
    ghost predicate Agree()
      reads this, pool
    {
      pattern == pool.pattern
    }

    constructor (src: Database, dst: Database, producer: Producer, pool: DoubleWritePool)
      requires pool.Valid() && pool.src == src && pool.dst == dst
      ensures Valid() && pattern == Pattern.SrcOnly
      ensures Agree() <==> pool.pattern == Pattern.SrcOnly
      ensures this.src == src && this.dst == dst && this.producer == producer && this.pool == pool
    {
      this.src, this.dst, this.producer, this.pool, pattern := src, dst, producer, pool, Pattern.SrcOnly;
    }

    method SwitchTo(p: Pattern)
      requires Valid() && !p.Unknown?
      modifies this, pool
      ensures Valid() && Agree() && pool.pattern == p
    {
      pattern := p;
      var _ := pool.UpdatePattern(p);
    }

    method SrcFirst()
      requires Valid()
      modifies this, pool
      ensures Valid() && Agree() && pool.pattern == Pattern.SrcFirst
    {
      SwitchTo(Pattern.SrcFirst);
    }

    method SrcOnly()
      requires Valid()
      modifies this, pool
      ensures Valid() && Agree() && pool.pattern == Pattern.SrcOnly
    {
      SwitchTo(Pattern.SrcOnly);
    }

    method DstFirst()
      requires Valid()
      modifies this, pool
      ensures Valid() && Agree() && pool.pattern == Pattern.DstFirst
    {
      SwitchTo(Pattern.DstFirst);
    }

    method DstOnly()
      requires Valid()
      modifies this, pool
      ensures Valid() && Agree() && pool.pattern == Pattern.DstOnly
    {
      SwitchTo(Pattern.DstOnly);
    }

    /** The validator's base is the primary side of the scheduler's pattern, and its events go
        in the direction whose fixer repairs the other side from it; so the base is the
        database the pool reads from if and only if the two patterns have the same primary. */
    method NewValidator(ghost consumer: Consumer) returns (v: Validator?)
      requires Valid()
      requires consumer.Valid() && consumer.src == src && consumer.dst == dst
      ensures v != null && v.producer == producer
      ensures v.base == Store(Primary(pattern)) && v.target == Store(Other(Primary(pattern)))
      ensures v.base == Store(Primary(pool.pattern)) <==> Primary(pattern) == Primary(pool.pattern)
      ensures v.direction == if Primary(pattern) == Src then SRC else DST
      ensures var fixer := if v.direction == SRC then consumer.srcFirst else consumer.dstFirst;
              fixer.base == v.base && fixer.target == v.target
    {
      match pattern {
        case SrcOnly => v := new Validator(src, dst, SRC, producer);
        case SrcFirst => v := new Validator(src, dst, SRC, producer);
        case DstFirst => v := new Validator(dst, src, DST, producer);
        case DstOnly => v := new Validator(dst, src, DST, producer);
        case Unknown(_) => v := null;
      }
    }
  }
}
