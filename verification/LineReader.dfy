/** Buffered reading of lines (`client/readline.cc`).

    The buffer grows, shifts and fills from a file whose reads may return any number of bytes.
    Whatever the reads do, the pieces handed out are cut from the file's text in order. */
module LineReader {

  const IO_SIZE: nat := 4096

  predicate IsEnd(c: char) { c == '\n' || c == '\0' }

  /** Position of the first newline or NUL, or the length. */
  function LineEnd(t: string): (n: nat)
    ensures n <= |t|
    ensures forall i :: 0 <= i < n ==> !IsEnd(t[i])
    ensures n < |t| ==> IsEnd(t[n])
  {
    if t == "" || IsEnd(t[0]) then 0 else 1 + LineEnd(t[1..])
  }

  predicate NoEnd(t: string) { forall i :: 0 <= i < |t| ==> !IsEnd(t[i]) }

  /** A text cut behind every newline or NUL. */
  function Pieces(t: string): seq<string>
    decreases |t|
  {
    if t == "" then []
    else if LineEnd(t) == |t| then [t]
    else [t[..LineEnd(t) + 1]] + Pieces(t[LineEnd(t) + 1..])
  }

  function Concat(ps: seq<string>): string {
    if ps == [] then "" else ps[0] + Concat(ps[1..])
  }

  /** The size that doubling from `b` reaches without exceeding `max`. */
  function Capacity(b: nat, max: nat): (c: nat)
    requires b > 0
    ensures b <= c && (c <= max || c == b) && 2 * c > max
    decreases max - b
  {
    if 2 * b > max then b else Capacity(2 * b, max)
  }

  /** What a fill of the buffer came to. */
  datatype Fill = Nothing | Failed | Got(count: nat)

  class LineBuffer {
    var input: string
    var inpos: nat
    var buffer: array<char>
    var startOfLine: nat
    var endOfLine: nat
    var end: nat
    var bufread: nat
    var maxSize: nat
    var eof: bool
    var truncated: bool
    var error: bool
    /** a read of the file has failed */
    ghost var readFailed: bool

    ghost predicate Valid()
      reads this, buffer
    {
      && inpos <= |input| && !error
      && endOfLine <= end < buffer.Length && buffer[end] == '\0'
      && (!eof ==> IO_SIZE <= bufread && buffer.Length == bufread + 1)
      && (eof ==> inpos == |input| && (endOfLine < end ==> buffer[end - 1] == '\n'))
    }

    /** The buffer has the sizes that doubling from the block size gives. */
    ghost predicate Sized()
      reads `bufread, `maxSize, `eof
    {
      !eof ==>
        && (bufread <= maxSize || bufread == IO_SIZE)
        && bufread > 0 && Capacity(bufread, maxSize) == Capacity(IO_SIZE, maxSize)
    }

    /** `init_line_buffer`. */
    constructor (input: string, maxSize: nat)
      ensures Valid() && Sized() && fresh(buffer) && !eof
      ensures this.input == input && this.maxSize == maxSize && Pending() == input
    {
      this.input, this.maxSize := input, maxSize;
      inpos, startOfLine, endOfLine, end := 0, 0, 0, 0;
      bufread := IO_SIZE;
      buffer := new char[IO_SIZE + 1](_ => '\0');
      eof, truncated, error, readFailed := false, false, false, false;
      new;
      assert buffer[0..0] == "" && input[0..] == input;
    }

    /** `init_line_buffer_from_string` for the first string. */
    constructor FromString(str: string)
      ensures Valid() && Sized() && fresh(buffer) && eof && endOfLine == 0 && buffer[..end] == str + "\n"
    {
      input, inpos, bufread, maxSize := "", 0, 0, 1;
      startOfLine, endOfLine, end := 0, 0, |str| + 1;
      buffer := new char[|str| + 2](i => if 0 <= i < |str| then str[i] else if i == |str| then '\n' else '\0');
      eof, truncated, error, readFailed := true, false, false, false;
    }

    /** `init_line_buffer_from_string` for a further string: a space takes the place of the newline. */
    method AddString(str: string)
      requires Valid() && eof && 0 < end && buffer[end - 1] == '\n'
      modifies this
      ensures Valid() && Sized() && fresh(buffer) && eof && endOfLine == 0 && input == old(input)
      ensures buffer[..end] == old(buffer[..end - 1]) + " " + str + "\n"
    {
      ghost var text := buffer[..end - 1];
      var bigger := new char[end + |str| + 2](_ => '\0');
      forall i | 0 <= i < end {
        bigger[i] := buffer[i];
      }
      bigger[end - 1] := ' ';
      forall i | 0 <= i < |str| {
        bigger[end + i] := str[i];
      }
      bigger[end + |str|] := '\n';
      assert bigger[..end + |str| + 1] == text + " " + str + "\n";
      startOfLine, endOfLine, end, buffer := 0, 0, end + |str| + 1, bigger;
      eof, maxSize := true, 1;
    }

    /** The text that was not handed out yet; a newline put behind an unterminated last line is not
        part of it. */
    ghost function Pending(): string
      reads this, buffer
      requires Valid()
    {
      if !eof then buffer[endOfLine..end] + input[inpos..]
      else if endOfLine < end then buffer[endOfLine..end - 1] else ""
    }

    /** `my_read`: any positive number of bytes while there are any, or an error. */
    method Read(count: nat) returns (ok: bool, chunk: string)
      requires count > 0 && inpos <= |input|
      modifies this`inpos, this`readFailed
      ensures readFailed <==> old(readFailed) || !ok
      ensures ok ==> |chunk| <= count && (chunk == "" <==> old(inpos) == |input|)
      ensures ok ==> inpos == old(inpos) + |chunk| <= |input| && chunk == input[old(inpos)..inpos]
    {
      var n: nat, fine: bool :| n <= count && inpos + n <= |input| && (n == 0 <==> inpos == |input|) && fine in {true, false};
      ok, chunk := fine, input[inpos..inpos + n];
      inpos := inpos + n;
      readFailed := readFailed || !ok;
    }

    /** The growth loop: room for at least one block, doubling the buffer once if it must and may. */
    method MakeRoom(bufbytes: nat) returns (room: nat)
      requires Valid() && Sized() && !eof && bufbytes <= end && startOfLine <= end
      modifies this`buffer, this`bufread
      ensures Valid() && Sized() && (buffer == old(buffer) || fresh(buffer))
      ensures Line() == old(Line())
      ensures bufread == old(bufread) || bufread == 2 * old(bufread)
      ensures room + bufbytes <= bufread
      ensures room == 0 <==> old(bufread) - bufbytes < IO_SIZE && 2 * old(bufread) > maxSize
      ensures room == 0 ==> bufread == old(bufread) == Capacity(IO_SIZE, maxSize) && buffer == old(buffer)
    {
      room := (bufread - bufbytes) / IO_SIZE * IO_SIZE;
      while room == 0
        invariant room == (bufread - bufbytes) / IO_SIZE * IO_SIZE
        invariant Valid() && Sized() && (buffer == old(buffer) || fresh(buffer))
        invariant forall i :: 0 <= i <= end ==> buffer[i] == old(buffer[i])
        invariant
          || (bufread == old(bufread) && buffer == old(buffer))
          || (bufread == 2 * old(bufread) <= maxSize && old(bufread) - bufbytes < IO_SIZE && room > 0)
        decreases if room == 0 then 1 else 0
      {
        if bufread * 2 > maxSize {
          return;
        }
        var bigger := new char[2 * bufread + 1](_ => '\0');
        forall i | 0 <= i <= bufread {
          bigger[i] := buffer[i];
        }
        buffer, bufread := bigger, 2 * bufread;
        room := (bufread - bufbytes) / IO_SIZE * IO_SIZE;
      }
    }

    method Shift(from: nat, n: nat)
      requires from + n <= buffer.Length
      modifies buffer
      ensures buffer[..n] == old(buffer[from..from + n])
    {
      forall i | 0 <= i < n {
        buffer[i] := buffer[from + i];
      }
    }

    /** Puts `more` and the sentinel at position `at`. */
    method Append(at: nat, more: string)
      requires at + |more| < buffer.Length
      modifies buffer
      ensures buffer[..at + |more|] == old(buffer[..at]) + more && buffer[at + |more|] == '\0'
    {
      forall i | 0 <= i < |more| {
        buffer[at + i] := more[i];
      }
      buffer[at + |more|] := '\0';
    }

    /** The current line as far as it is in the buffer, and what the file still has. */
    ghost function Line(): string
      reads this, buffer
      requires startOfLine <= end <= buffer.Length
    {
      buffer[startOfLine..end]
    }

    ghost function Ahead(): string
      reads this
      requires inpos <= |input|
    {
      input[inpos..]
    }

    /** The first `n` bytes become the line, followed by `more`. */
    method Install(n: nat, more: string)
      requires n + |more| < buffer.Length
      modifies `startOfLine, `endOfLine, `end, buffer
      ensures startOfLine == 0 && endOfLine == n && end == n + |more| && buffer[end] == '\0'
      ensures Line() == old(buffer[..n]) + more
      ensures more != "" ==> buffer[end - 1] == more[|more| - 1]
    {
      Append(n, more);
      startOfLine, endOfLine, end := 0, n, n + |more|;
      assert Line() == buffer[..end];
      assert more != "" ==> Line()[end - 1] == more[|more| - 1];
    }

    /** Moves the line to the front and reads up to `room` bytes behind it.  At the end of the file
        an unterminated line gets a newline. */
    method ReadBehind(room: nat) returns (r: Fill)
      requires Valid() && startOfLine <= endOfLine && !eof && 0 < room && end - startOfLine + room <= bufread
      modifies `inpos, `readFailed, `error, `eof, `startOfLine, `endOfLine, `end, buffer
      ensures (error <==> r.Failed?) && (error ==> readFailed)
      ensures !error ==> Valid() && startOfLine == 0 && endOfLine == |old(Line())| && old(Line()) <= Line()
      ensures !error && !eof ==> r.Got? && |Ahead()| < |old(Ahead())| && Line() + Ahead() == old(Line()) + old(Ahead())
      ensures !error && eof ==> old(Ahead()) == "" && Line() == Closed(old(Line()))
      ensures !error && eof ==> r == if Line() == old(Line()) then Nothing else Got(1)
    {
      var bufbytes := end - startOfLine;
      ghost var line := Line();
      Shift(startOfLine, bufbytes);
      var ok, more := Read(room);
      if !ok {
        error := true;
        return Failed;
      }
      assert more + Ahead() == old(Ahead());
      assert buffer[..bufbytes] == line;
      if more == "" {
        eof := true;
        if bufbytes > 0 && buffer[bufbytes - 1] != '\n' {
          more := "\n";
        }
        assert Closed(line) == line + more;
      }
      Install(bufbytes, more);
      assert line + (more + Ahead()) == (line + more) + Ahead();
      r := if more == "" then Nothing else Got(|more|);
    }

    /** `fill_buffer`.  It does nothing at the end of the file, and when the buffer is full and may
        not grow. */
    method FillBuffer() returns (r: Fill)
      requires Valid() && Sized() && startOfLine <= endOfLine
      modifies this, buffer
      ensures input == old(input) && maxSize == old(maxSize) && truncated == old(truncated)
      ensures Sized() && (buffer == old(buffer) || fresh(buffer)) && (bufread == old(bufread) || bufread == 2 * old(bufread))
      ensures (error <==> r.Failed?) && (error ==> readFailed)
      ensures !error ==> Valid() && startOfLine <= endOfLine
      ensures old(eof) || (r.Nothing? && !eof) ==>
                (r.Nothing? && eof == old(eof) && endOfLine == old(endOfLine) && end == old(end)
                 && startOfLine == old(startOfLine) && inpos == old(inpos)
                 && buffer == old(buffer) && buffer[..] == old(buffer[..]))
      ensures r.Nothing? && !eof ==> bufread == Capacity(IO_SIZE, maxSize) && |Line()| > bufread - IO_SIZE
      ensures !old(eof) && !error && (r.Got? || eof) ==>
                startOfLine == 0 && endOfLine == |old(Line())| && old(Line()) <= Line()
      ensures !old(eof) && r.Got? && !eof ==>
                |Ahead()| < |old(Ahead())| && Line() + Ahead() == old(Line()) + old(Ahead())
      ensures !old(eof) && eof && !error ==>
                old(Ahead()) == "" && Line() == Closed(old(Line())) && r == if Line() == old(Line()) then Nothing else Got(1)
    {
      if eof {
        return Nothing;
      }
      hide Capacity;
      var room := MakeRoom(end - startOfLine);
      if room == 0 {
        return Nothing;
      }
      r := ReadBehind(room);
    }

    /** In the middle of a line: `text` was pending when it was started, or, at the end of the file,
        `tail` was what the buffer still had. */
    ghost predicate Reading(text: string, tail: string, wasEof: bool)
      reads this, buffer
    {
      && Valid() && startOfLine <= endOfLine && NoEnd(buffer[startOfLine..endOfLine])
      && (wasEof ==> eof && startOfLine == endOfLine && Line() == tail)
      && (!wasEof && !eof ==> Line() + Ahead() == text)
      && (!wasEof && eof ==> text != "" && NoEnd(text) && Line() == text + "\n" && endOfLine == end - 1)
    }

    /** A fill of the buffer in the middle of a line without an end. */
    method More(ghost text: string, ghost tail: string, ghost wasEof: bool) returns (r: Fill)
      requires Sized() && Reading(text, tail, wasEof) && NoEnd(Line())
      modifies this, buffer
      ensures input == old(input) && maxSize == old(maxSize) && Sized() && (buffer == old(buffer) || fresh(buffer))
      ensures (error <==> r.Failed?) && (error ==> readFailed)
      ensures old(eof) ==> !error
      ensures r.Got? ==> Reading(text, tail, wasEof) && !old(eof) && (eof || |Ahead()| < |old(Ahead())|) && |Ahead()| <= |old(Ahead())|
      ensures r.Nothing? && eof ==> Valid() && endOfLine == end && if wasEof then tail == "" else text == ""
      ensures r.Nothing? && !eof ==> Reading(text, tail, wasEof) && Line() == old(Line()) && end == old(end)
                                     && |Line()| > Capacity(IO_SIZE, maxSize) - IO_SIZE
    {
      hide Capacity;
      ghost var line := Line();
      r := FillBuffer();
      if r.Got? {
        assert buffer[startOfLine..endOfLine] == line by {
          assert Line()[..|line|] == line;
        }
      }
    }

    /** The inner scan for a newline or NUL; the sentinel stops it at the latest. */
    method Scan(ghost text: string, ghost tail: string, ghost wasEof: bool) returns (pos: nat)
      requires Reading(text, tail, wasEof)
      ensures startOfLine <= pos <= end < buffer.Length && IsEnd(buffer[pos]) && NoEnd(buffer[startOfLine..pos])
      ensures pos == end ==> NoEnd(Line())
    {
      pos := endOfLine;
      while buffer[pos] != '\n' && buffer[pos] != '\0'
        invariant endOfLine <= pos <= end && NoEnd(buffer[startOfLine..pos])
        decreases end - pos
      {
        assert buffer[startOfLine..pos + 1] == buffer[startOfLine..pos] + [buffer[pos]];
        pos := pos + 1;
      }
    }

    /** The loop: looks for the end of the line and fills the buffer until it is there.  `cut` says
        that the line ends where the buffer does. */
    method Locate(ghost text: string, ghost tail: string, ghost wasEof: bool) returns (found: bool, pos: nat, cut: bool)
      requires Sized() && Reading(text, tail, wasEof)
      modifies this, buffer
      ensures input == old(input) && maxSize == old(maxSize) && Sized() && (buffer == old(buffer) || fresh(buffer))
      ensures error ==> !found && !wasEof && readFailed
      ensures !error && !found ==> Valid() && eof && endOfLine == end && if wasEof then tail == "" else text == ""
      ensures found ==> Reading(text, tail, wasEof) && startOfLine <= pos < end < buffer.Length
      ensures found && !cut ==> IsEnd(buffer[pos]) && NoEnd(buffer[startOfLine..pos])
      ensures found && cut ==> !eof && pos == end - 1 && NoEnd(Line()) && |Line()| > Capacity(IO_SIZE, maxSize) - IO_SIZE
    {
      found, pos, cut := true, 0, false;
      while true
        invariant found && !cut && Sized() && Reading(text, tail, wasEof)
        invariant input == old(input) && maxSize == old(maxSize) && (buffer == old(buffer) || fresh(buffer))
        decreases |Ahead()|, if eof then 0 else 1
      {
        hide Capacity, Reading, Sized, NoEnd, IsEnd;
        pos := Scan(text, tail, wasEof);
        if pos < end {
          return;
        }
        var r := More(text, tail, wasEof);
        if r.Failed? || (r.Nothing? && eof) {
          found := false;
          return;
        }
        if r.Nothing? {
          pos, cut := pos - 1, true;
          return;
        }
      }
    }

    /** `intern_read_line`: the next piece is `buffer[startOfLine..][..length]`, unless there is none. */
    method InternReadLine() returns (found: bool, length: nat)
      requires Valid() && Sized()
      modifies this, buffer
      ensures input == old(input) && maxSize == old(maxSize) && Sized() && (buffer == old(buffer) || fresh(buffer))
      ensures error ==> !found && !old(eof) && readFailed
      ensures !error ==> Valid()
      ensures found ==> Taken(length)
      ensures !error && !found ==> eof && endOfLine == end && if old(eof) then old(endOfLine == end) else old(Pending()) == ""
      ensures found && !old(eof) ==> NextPiece(old(Pending()), buffer[startOfLine..startOfLine + length], Pending(), truncated, maxSize)
      ensures found && !old(eof) && eof ==> endOfLine == end
      ensures found && old(eof) ==>
                eof && !truncated && NextLine(old(buffer[endOfLine..end]), buffer[startOfLine..startOfLine + length], buffer[endOfLine..end])
    {
      hide Capacity, Sized, LineEnd, NextPiece, NextLine;
      ghost var text, tail, wasEof := Pending(), buffer[endOfLine..end], eof;
      startOfLine := endOfLine;
      assert Reading(text, tail, wasEof);
      hide Reading, NoEnd, IsEnd;
      var pos, cut;
      found, pos, cut := Locate(text, tail, wasEof);
      length := 0;
      if found {
        length := Take(text, tail, wasEof, pos, cut);
      }
    }

    /** Where the piece that was taken lies. */
    ghost predicate Taken(length: nat)
      reads this, buffer
    {
      && startOfLine + length == endOfLine - (if eof then 1 else 0) && endOfLine <= end < buffer.Length
      && (!eof ==> length > 0)
      && (if truncated then !eof && endOfLine == end else 0 < endOfLine && IsEnd(buffer[endOfLine - 1]))
    }

    /** The end of `intern_read_line`: the piece up to `pos` is taken. */
    method Take(ghost text: string, ghost tail: string, ghost wasEof: bool, pos: nat, cut: bool) returns (length: nat)
      requires Reading(text, tail, wasEof) && startOfLine <= pos < end
      requires !cut ==> IsEnd(buffer[pos]) && NoEnd(buffer[startOfLine..pos])
      requires cut ==> !eof && pos == end - 1 && NoEnd(Line()) && |Line()| > Capacity(IO_SIZE, maxSize) - IO_SIZE
      modifies `truncated, `endOfLine
      ensures Valid() && Taken(length) && truncated == cut
      ensures !wasEof ==> NextPiece(text, buffer[startOfLine..startOfLine + length], Pending(), truncated, maxSize)
      ensures wasEof ==> !truncated && NextLine(tail, buffer[startOfLine..startOfLine + length], buffer[endOfLine..end])
      ensures !wasEof && eof ==> endOfLine == end
    {
      hide Capacity, LineEnd, NextPiece, NextLine, IsEnd, NoEnd;
      ghost var line, n := Line(), pos - startOfLine;
      assert line[..n] == buffer[startOfLine..pos] && line[..n + 1] == buffer[startOfLine..pos + 1];
      assert line[n + 1..] == buffer[pos + 1..end];
      truncated, endOfLine := cut, pos + 1;
      length := pos + 1 - (if eof then 1 else 0) - startOfLine;
      if !eof {
        PieceInside(line, Ahead(), n, truncated, maxSize);
      } else if !wasEof {
        LastPiece(text, n, maxSize);
        assert line[..n] == text;
      } else {
        LineTaken(line, n);
      }
    }

    /** A reader of a file, as opposed to one of strings given on the command line. */
    ghost predicate Ready()
      reads this, buffer
    {
      Valid() && Sized() && (eof ==> endOfLine == end)
    }

    /** The next raw piece of a file. */
    method NextRaw() returns (found: bool, piece: string)
      requires Ready()
      modifies this, buffer
      ensures input == old(input) && maxSize == old(maxSize) && (buffer == old(buffer) || fresh(buffer))
      ensures error ==> !found && readFailed
      ensures !error ==> Ready()
      ensures !error && !found ==> old(Pending()) == "" && eof
      ensures found ==> NextPiece(old(Pending()), piece, Pending(), truncated, maxSize)
    {
      hide Capacity, Sized, NextPiece;
      var length;
      found, length := InternReadLine();
      piece := if found then buffer[startOfLine..startOfLine + length] else "";
    }

    /** The next line of a file. */
    method NextOfFile() returns (found: bool, line: string, ghost raw: string, ghost rest: string)
      requires Ready()
      modifies this, buffer
      ensures input == old(input) && maxSize == old(maxSize) && (buffer == old(buffer) || fresh(buffer))
      ensures error ==> !found && readFailed
      ensures !error ==> Ready()
      ensures !error && !found ==> old(Pending()) == "" && eof
      ensures old(eof) ==> !found && !error
      ensures found ==> line == Strip(raw) && NextPiece(old(Pending()), raw, rest, truncated, maxSize)
      ensures found ==> Pending() == if eof then rest else Marked(raw, rest, endOfLine == end)
    {
      hide Capacity, Sized, NextPiece, Marked, Strip;
      ghost var before := Pending();
      found, line, raw := BatchReadline();
      rest := "";
      if found {
        rest :| NextPiece(before, raw, rest, truncated, maxSize)
                && Pending() == if eof then rest else Marked(raw, rest, endOfLine == end);
      }
    }

    /** `batch_readline`: the next line without its newline and the carriage return before it. */
    method BatchReadline() returns (found: bool, line: string, ghost raw: string)
      requires Valid() && Sized()
      modifies this, buffer
      ensures input == old(input) && maxSize == old(maxSize) && Sized() && (buffer == old(buffer) || fresh(buffer))
      ensures error ==> !found && !old(eof) && readFailed
      ensures !error ==> Valid()
      ensures !error && !found ==> eof && endOfLine == end && if old(eof) then old(endOfLine == end) else old(Pending()) == ""
      ensures found ==> line == Strip(raw)
      ensures found && !old(eof) && eof ==> endOfLine == end
      ensures found && !old(eof) ==>
                exists rest :: NextPiece(old(Pending()), raw, rest, truncated, maxSize) && Pending() == (if eof then rest else Marked(raw, rest, endOfLine == end))
      ensures found && old(eof) ==> eof && !truncated && NextLine(old(buffer[endOfLine..end]), raw, buffer[endOfLine..end])
    {
      hide Capacity, Sized, NextPiece, NextLine, LineEnd, Strip, Marked, Taken, IsEnd;
      var length;
      found, length := InternReadLine();
      line, raw := "", "";
      if found {
        line, raw := Cut(length);
      }
    }

    method StripEnd(length: nat) returns (n: nat)
      requires startOfLine + length <= buffer.Length
      ensures n <= length && buffer[startOfLine..startOfLine + n] == Strip(buffer[startOfLine..startOfLine + length])
      ensures n == length <==> length == 0 || buffer[startOfLine + length - 1] != '\n'
    {
      ghost var raw := buffer[startOfLine..startOfLine + length];
      n := length;
      if n > 0 && buffer[startOfLine + n - 1] == '\n' {
        n := n - 1;
        if n > 0 && buffer[startOfLine + n - 1] == '\r' {
          n := n - 1;
        }
      }
      assert buffer[startOfLine..startOfLine + n] == raw[..n];
    }

    /** Strips the line end and writes the terminating NUL. */
    method Cut(length: nat) returns (line: string, ghost raw: string)
      requires Valid() && Taken(length)
      modifies buffer
      ensures Valid() && line == Strip(raw) && raw == old(buffer[startOfLine..startOfLine + length])
      ensures !eof ==> Pending() == Marked(raw, old(Pending()), endOfLine == end)
      ensures eof ==> buffer[endOfLine..end] == old(buffer[endOfLine..end]) && Pending() == old(Pending())
    {
      var n := StripEnd(length);
      assert startOfLine + length <= endOfLine && (eof ==> startOfLine + length < endOfLine);
      raw := buffer[startOfLine..startOfLine + length];
      line := buffer[startOfLine..startOfLine + n];
      assert raw != "" ==> raw[|raw| - 1] == buffer[startOfLine + length - 1];
      assert !eof && !truncated ==> startOfLine + length == endOfLine && (n < length || raw[|raw| - 1] == '\0');
      assert !eof && truncated ==> endOfLine == end;
      hide Strip, Valid, Taken, Pending;
      WriteNul(startOfLine + n);
    }

    method WriteNul(at: nat)
      requires Valid() && at <= endOfLine && (eof ==> at < endOfLine)
      modifies buffer
      ensures Valid()
      ensures at < endOfLine || endOfLine == end ==> Pending() == old(Pending()) && buffer[endOfLine..end] == old(buffer[endOfLine..end])
      ensures at == endOfLine < end ==> old(Pending()) != "" && Pending() == old(Pending())[0 := '\0']
    {
      ghost var was := buffer[endOfLine..end];
      buffer[at] := '\0';
      if at < endOfLine || endOfLine == end {
        assert buffer[endOfLine..end] == was;
        if eof && endOfLine < end {
          assert buffer[endOfLine..end - 1] == was[..|was| - 1];
        }
      } else {
        assert buffer[endOfLine..end] == was[0 := '\0'];
        assert was[0 := '\0'] + Ahead() == (was + Ahead())[0 := '\0'];
      }
    }
  }

  /** A last line with its newline, real or put there. */
  function Closed(line: string): string {
    if line != "" && line[|line| - 1] != '\n' then line + "\n" else line
  }

  /** What one call of the reader takes from the text: the next piece, or a part of it when the
      buffer is full and may not grow. */
  ghost predicate NextPiece(text: string, piece: string, rest: string, truncated: bool, maxSize: nat) {
    && piece != "" && piece + rest == text
    && (!truncated ==> |piece| == if LineEnd(text) < |text| then LineEnd(text) + 1 else |text|)
    && (truncated ==> NoEnd(piece) && |piece| > Capacity(IO_SIZE, maxSize) - IO_SIZE)
  }

  /** At the end of the file the pieces are lines without their newline. */
  predicate NextLine(tail: string, line: string, rest: string) {
    LineEnd(tail) < |tail| && line == tail[..LineEnd(tail)] && rest == tail[LineEnd(tail) + 1..]
  }

  lemma EndAt(t: string, n: nat)
    requires n < |t| && NoEnd(t[..n]) && IsEnd(t[n])
    ensures LineEnd(t) == n
  {
    assert forall i :: 0 <= i < n ==> !IsEnd(t[..n][i]);
    assert forall i :: 0 <= i < n ==> t[..n][i] == t[i];
  }

  lemma LineTaken(t: string, n: nat)
    requires n < |t| && NoEnd(t[..n]) && IsEnd(t[n])
    ensures NextLine(t, t[..n], t[n + 1..])
  {
    EndAt(t, n);
  }

  lemma PieceInside(line: string, ahead: string, n: nat, truncated: bool, maxSize: nat)
    requires n < |line| && (truncated ==> n + 1 == |line| > Capacity(IO_SIZE, maxSize) - IO_SIZE && NoEnd(line))
    requires !truncated ==> NoEnd(line[..n]) && IsEnd(line[n])
    ensures NextPiece(line + ahead, line[..n + 1], line[n + 1..] + ahead, truncated, maxSize)
  {
    hide Capacity;
    var text := line + ahead;
    assert line[..n + 1] + (line[n + 1..] + ahead) == text;
    if !truncated {
      assert text[..n] == line[..n];
      EndAt(text, n);
    } else {
      assert line[..n + 1] == line;
    }
  }

  lemma LastPiece(text: string, n: nat, maxSize: nat)
    requires text != "" && NoEnd(text)
    requires n <= |text| && IsEnd((text + "\n")[n])
    ensures n == |text| && NextPiece(text, text, "", false, maxSize)
  {
    hide Capacity;
    assert forall i :: 0 <= i < |text| ==> (text + "\n")[i] == text[i];
  }

  /** A line without its newline and the carriage return before it. */
  function Strip(raw: string): string {
    if raw == "" || raw[|raw| - 1] != '\n' then raw
    else if |raw| > 1 && raw[|raw| - 2] == '\r' then raw[..|raw| - 2]
    else raw[..|raw| - 1]
  }

  /** The terminating NUL of a line is written behind it.  Behind a piece that a NUL in the file
      ended, that is the first byte of the next line. */
  function Marked(raw: string, rest: string, atEnd: bool): string {
    if !atEnd && rest != "" && raw != "" && raw[|raw| - 1] == '\0' then rest[0 := '\0'] else rest
  }

  // ----- whole files

  lemma {:induction false} ConcatSnoc(ps: seq<string>, p: string)
    ensures Concat(ps + [p]) == Concat(ps) + p
  {
    if ps == [] {
      assert ps + [p] == [p] && [p][1..] == [];
    } else {
      assert (ps + [p])[1..] == ps[1..] + [p];
      ConcatSnoc(ps[1..], p);
    }
  }

  lemma PieceAdded(text: string, done: seq<string>, before: string, piece: string, rest: string, truncated: bool, maxSize: nat)
    requires Concat(done) + before == text && NextPiece(before, piece, rest, truncated, maxSize)
    ensures Concat(done + [piece]) + rest == text && |rest| < |before|
  {
    hide Capacity, LineEnd;
    ConcatSnoc(done, piece);
    assert Concat(done) + (piece + rest) == (Concat(done) + piece) + rest;
  }

  /** Reads a file to its end: whatever the reads return, whatever the size limit cuts, the pieces
      put together are the text; after an error they are a part of it from the start. */
  method ReadPieces(buf: LineBuffer) returns (pieces: seq<string>)
    requires buf.Ready()
    modifies buf, buf.buffer
    ensures buf.error ==> buf.readFailed && Concat(pieces) <= old(buf.Pending())
    ensures !buf.error ==> buf.Ready() && buf.eof && Concat(pieces) == old(buf.Pending())
  {
    ghost var text := buf.Pending();
    pieces := [];
    assert Concat([]) + text == text;
    var more := true;
    assert !buf.error;
    hide *;
    while more
      invariant !buf.error ==> buf.Ready() && (buf.buffer == old(buf.buffer) || fresh(buf.buffer))
      invariant buf.error ==> !more && buf.readFailed && Concat(pieces) <= text
      invariant !buf.error ==> Concat(pieces) + buf.Pending() == text
      invariant !buf.error && !more ==> buf.Pending() == "" && buf.eof
      decreases more, if more then |buf.Pending()| else 0
    {
      ghost var before := buf.Pending();
      var piece;
      more, piece := buf.NextRaw();
      if more {
        PieceAdded(text, pieces, before, piece, buf.Pending(), buf.truncated, buf.maxSize);
        pieces := pieces + [piece];
      } else if !buf.error {
        AtEnd(buf);
      }
    }
  }

  lemma AtEnd(buf: LineBuffer)
    requires buf.Ready() && buf.eof
    ensures buf.Pending() == ""
  {
  }

  predicate NulFree(t: string) { forall i :: 0 <= i < |t| ==> t[i] != '\0' }

  /** Every line, without its newline, leaves a block of the largest buffer free. */
  predicate AllFit(text: string, maxSize: nat)
    decreases |text|
  {
    text == "" || (LineEnd(text) + IO_SIZE <= Capacity(IO_SIZE, maxSize) &&
                   (LineEnd(text) < |text| ==> AllFit(text[LineEnd(text) + 1..], maxSize)))
  }

  function StripAll(ps: seq<string>): seq<string> {
    if ps == [] then [] else [Strip(ps[0])] + StripAll(ps[1..])
  }

  /** The lines of a text: split at newlines, without the carriage return before a newline. */
  function Lines(text: string): seq<string> { StripAll(Pieces(text)) }

  lemma NextFits(text: string, piece: string, rest: string, truncated: bool, maxSize: nat)
    requires NulFree(text) && AllFit(text, maxSize) && NextPiece(text, piece, rest, truncated, maxSize)
    ensures !truncated && NulFree(rest) && AllFit(rest, maxSize) && Lines(text) == [Strip(piece)] + Lines(rest)
    ensures forall atEnd :: Marked(piece, rest, atEnd) == rest
  {
    hide Capacity, Strip;
    assert piece[|piece| - 1] == text[|piece| - 1];
    assert forall i :: 0 <= i < |rest| ==> rest[i] == text[|piece| + i];
    if truncated {
      PrefixWithoutEnd(text, piece);
    }
    assert piece == text[..|piece|] && rest == text[|piece|..];
    if LineEnd(text) == |text| {
      assert Pieces(text) == [text] && piece == text && rest == "";
    } else {
      assert Pieces(text) == [piece] + Pieces(rest);
    }
    assert Pieces(text)[1..] == Pieces(rest);
  }

  lemma PrefixWithoutEnd(text: string, piece: string)
    requires piece <= text && NoEnd(piece)
    ensures LineEnd(text) >= |piece|
  {
    assert forall i :: 0 <= i < |piece| ==> text[i] == piece[i];
  }

  lemma LineAdded(text: string, done: seq<string>, before: string, raw: string, rest: string, truncated: bool, maxSize: nat)
    requires done + Lines(before) == Lines(text) && NulFree(before) && AllFit(before, maxSize)
    requires NextPiece(before, raw, rest, truncated, maxSize)
    ensures done + [Strip(raw)] + Lines(rest) == Lines(text) && NulFree(rest) && AllFit(rest, maxSize)
    ensures |rest| < |before| && forall atEnd :: Marked(raw, rest, atEnd) == rest
  {
    hide Capacity, LineEnd, Lines;
    NextFits(before, raw, rest, truncated, maxSize);
    assert done + ([Strip(raw)] + Lines(rest)) == done + [Strip(raw)] + Lines(rest);
  }

  /** `batch_readline` until it returns NULL: exactly the lines of the file, for every way the reads
      split it, if no line is too long for the buffer. */
  method ReadLines(buf: LineBuffer) returns (lines: seq<string>)
    requires buf.Ready() && NulFree(buf.Pending()) && AllFit(buf.Pending(), buf.maxSize)
    modifies buf, buf.buffer
    ensures !buf.error ==> buf.Ready() && buf.eof && lines == Lines(old(buf.Pending()))
    ensures buf.error ==> buf.readFailed
  {
    ghost var text := buf.Pending();
    lines := [];
    assert [] + Lines(text) == Lines(text);
    var more := true;
    assert !buf.error;
    hide *;
    while more
      invariant !buf.error ==> buf.Ready() && (buf.buffer == old(buf.buffer) || fresh(buf.buffer))
      invariant buf.error ==> !more && buf.readFailed
      invariant more ==> NulFree(buf.Pending()) && AllFit(buf.Pending(), buf.maxSize) && lines + Lines(buf.Pending()) == Lines(text)
      invariant !buf.error && !more ==> lines == Lines(text) && buf.eof
      decreases more, if more then |buf.Pending()| else 0
    {
      ghost var before := buf.Pending();
      var line;
      ghost var raw, rest;
      more, line, raw, rest := buf.NextOfFile();
      if more {
        LineAdded(text, lines, before, raw, rest, buf.truncated, buf.maxSize);
        lines := lines + [line];
      } else if !buf.error {
        NoLines();
      }
    }
  }

  lemma NoLines()
    ensures Lines("") == []
  {
  }

  /** The lines of a text that ends in a newline, without the newlines. */
  function Split(t: string): seq<string>
    decreases |t|
  {
    if t == "" || LineEnd(t) == |t| then [] else [t[..LineEnd(t)]] + Split(t[LineEnd(t) + 1..])
  }

  lemma SplitStep(all: seq<string>, done: seq<string>, t: string, line: string, rest: string)
    requires done + Split(t) == all && NextLine(t, line, rest)
    ensures done + [line] + Split(rest) == all && |rest| < |t|
  {
    hide LineEnd;
    assert done + ([line] + Split(rest)) == done + [line] + Split(rest);
  }

  /** Lines of strings given on the command line; a carriage return stays. */
  method ReadStrings(buf: LineBuffer) returns (lines: seq<string>)
    requires buf.Valid() && buf.Sized() && buf.eof
    modifies buf, buf.buffer
    ensures lines == Split(old(buf.buffer[buf.endOfLine..buf.end]))
  {
    ghost var all := Split(buf.buffer[buf.endOfLine..buf.end]);
    lines := [];
    assert [] + all == all;
    hide LineEnd, Split, NextLine, NextPiece, Capacity, Strip;
    while true
      invariant buf.Valid() && buf.Sized() && buf.eof && (buf.buffer == old(buf.buffer) || fresh(buf.buffer))
      invariant lines + Split(buf.buffer[buf.endOfLine..buf.end]) == all
      decreases |buf.buffer[buf.endOfLine..buf.end]|
    {
      ghost var t := buf.buffer[buf.endOfLine..buf.end];
      var found, line, raw := buf.BatchReadline();
      if !found {
        SplitNothing();
        break;
      }
      SplitStep(all, lines, t, raw, buf.buffer[buf.endOfLine..buf.end]);
      assert line == raw by { NoNewlineNoStrip(t, raw, buf.buffer[buf.endOfLine..buf.end]); }
      lines := lines + [line];
    }
  }

  lemma SplitNothing()
    ensures Split("") == []
  {
  }

  lemma NoNewlineNoStrip(t: string, line: string, rest: string)
    requires NextLine(t, line, rest)
    ensures Strip(line) == line
  {
    assert line != "" ==> !IsEnd(t[|line| - 1]);
  }
}
