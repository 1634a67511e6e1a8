/** The runs of the delivery path take the very steps of the agent's objects. */
module DeliveryLinks {
  import opened Agent
  import opened Delivery
  import opened DeliveryRuns
  import opened Spool

  /** Reacting to an answer is what the uploader does with the head of the queue when that answer arrives. */
  lemma ReactionIsAttempt(w: World, works: bool, stamp: string)
    requires Inv(w) && w.upload.Answered?
    ensures Reaction(w, works, stamp) == Attempt(w.queue, w.disk, Answer(w.upload.status), works, stamp)
  {
  }

  /** A request or response that is lost leaves queue and files as an attempt without an answer does. */
  lemma LossIsNoAnswer(w: World, s: Step, works: bool, stamp: string)
    requires Inv(w) && (s.LoseRequest? || s.LoseResponse?) && Enabled(w, s)
    ensures var e := Attempt(w.queue, w.disk, NoAnswer, works, stamp);
            Next(w, s).queue == e.queue && Next(w, s).disk == e.disk
  {
  }

  /** The world after the first n lines of the file being imported, as far as the import gets. */
  function Imported(w: World, luck: nat -> Luck, n: nat): World
    requires w.importing.Importing? && w.importing.next == 0 && n <= |w.importing.lines|
  {
    if n == 0 then w
    else
      var t := Imported(w, luck, n - 1);
      if t.importing == w.importing.(next := n - 1) then AfterImportLine(t, luck(n - 1).io, luck(n - 1).now) else t
  }

  lemma LineAgrees(w: World, luck: Luck, p: Progress, line: SpoolLine)
    requires w.importing.Importing? && w.importing.next < |w.importing.lines| && line == w.importing.lines[w.importing.next]
    requires p.ok && p.queue == w.queue && p.disk == w.disk
    ensures var p', w' := OneLine(w.limits, p, line, luck), AfterImportLine(w, luck.io, luck.now);
            && w'.queue == p'.queue && w'.disk == p'.disk && w'.limits == w.limits
            && w'.importing == if p'.ok then w.importing.(next := w.importing.next + 1) else NoImport
  {
  }

  /** Importing a file step by step ends with the queue, files and verdict of importing it in one call. */
  lemma {:induction false} ImportStepsAgree(w: World, luck: nat -> Luck, n: nat)
    requires w.importing.Importing? && w.importing.next == 0 && n <= |w.importing.lines|
    ensures var p, t := ImportLines(w.limits, w.queue, w.disk, w.importing.lines, luck, n), Imported(w, luck, n);
            && t.queue == p.queue && t.disk == p.disk && t.limits == w.limits
            && (if p.ok then t.importing == w.importing.(next := n) else t.importing == NoImport)
  {
    if n > 0 {
      ImportStepsAgree(w, luck, n - 1);
      var p, t := ImportLines(w.limits, w.queue, w.disk, w.importing.lines, luck, n - 1), Imported(w, luck, n - 1);
      if p.ok {
        LineAgrees(t, luck(n - 1), p, w.importing.lines[n - 1]);
      }
    }
  }
}
