/** The admin panel's booking transaction and its "Approve" table action.

    A booking's payment flag has two states, Unpaid and Paid. The action sets the
    flag and saves; it is shown only while the booking is unpaid. After saving it
    posts an in-panel notification and builds a WhatsApp message for the
    customer. Sending either one is outside the model: the action's result
    records what would be emitted. */
module BookingApproval {
  import opened Wrappers

  /** The stored booking transaction (the fields of `BookingDetails`, with the
      office referenced by id). Money and duration are whole numbers. The
      created/updated/deleted timestamps are not part of the record, so the
      frame properties below speak of these fields only. */
  datatype Booking = Booking(
    id: int,
    name: string,
    phone_number: string,
    booking_trx_id: string,
    is_paid: bool,
    duration: int,
    total_amount: int,
    started_at: string,
    ended_at: string,
    office_space_id: int)

  datatype PaymentState = Unpaid | Paid

  function StateOf(b: Booking): PaymentState {
    if b.is_paid then Paid else Unpaid
  }

  /** The lifecycle's only transition. */
  predicate Transition(from: PaymentState, to: PaymentState) {
    from == Unpaid && to == Paid
  }

  /** Two bookings agree on every field except the payment flag. */
  predicate SameExceptPaid(a: Booking, b: Booking) {
    && a.id == b.id
    && a.name == b.name
    && a.phone_number == b.phone_number
    && a.booking_trx_id == b.booking_trx_id
    && a.duration == b.duration
    && a.total_amount == b.total_amount
    && a.started_at == b.started_at
    && a.ended_at == b.ended_at
    && a.office_space_id == b.office_space_id
  }

  /** The record update the action performs before saving. */
  function Approve(b: Booking): (r: Booking)
    ensures r.is_paid
    ensures SameExceptPaid(b, r)
    ensures StateOf(r) == Paid
  {
    b.(is_paid := true)
  }

  /** The table action's visibility guard. */
  function ApproveVisible(b: Booking): (v: bool)
    ensures v <==> StateOf(b) == Unpaid
  {
    !b.is_paid
  }

  /** Approving changes a booking exactly when the booking is unpaid; a paid
      booking is left as it is. */
  lemma ApproveChangesOnlyUnpaid(b: Booking)
    ensures Approve(b) == b <==> b.is_paid
    ensures Approve(b) != b <==> ApproveVisible(b)
  {
  }

  lemma ApproveIdempotent(b: Booking)
    ensures Approve(Approve(b)) == Approve(b)
  {
    ApproveChangesOnlyUnpaid(Approve(b));
  }

  /** The frame of the action: two bookings agree on everything but the flag
      exactly when approving them gives the same record. */
  lemma ApproveFrame(a: Booking, b: Booking)
    ensures Approve(a) == Approve(b) <==> SameExceptPaid(a, b)
  {
  }

  /** Where the action is visible it takes the lifecycle's one transition, and
      afterwards it is never visible again: Paid is terminal for this action. */
  lemma ApproveIsOneShot(b: Booking)
    ensures ApproveVisible(b) ==> Transition(StateOf(b), StateOf(Approve(b)))
    ensures !ApproveVisible(Approve(b))
    ensures StateOf(b) == Paid ==> !ApproveVisible(b)
    ensures Transition(StateOf(b), StateOf(Approve(b))) ==> ApproveVisible(b)
  {
  }

  // ----- messages -----

  const NotificationTitle := "Booking Approved"
  const NotificationPrefix := "The booking with TRX ID: "
  const NotificationSuffix := " has been approved."

  const GreetingPrefix := "Hi "
  const CodeIntro := ", pemesanan Anda dengan kode "
  const PaidLine := " sudah terbayar penuh. \n\n"
  const LocationIntro := "Silahkan datang kepada lokasi kantor "
  const LocationLine := " untuk mulai menggunakan ruangan kerja tersebut. \n\n"
  const ContactLine := "Jika Anda memiliki pertanyaan lebih lanjut, silahkan mengubungi CS kami di firstoffice.com/contact-us."

  /** The WhatsApp sandbox sender and the fixed recipient the action uses. The
      recipient is a constant, not the booking's phone number. */
  const WhatsAppFrom := "whatsapp:+14155238886"
  const WhatsAppTo := "whatsapp:+6285700287191"

  /** `needle` occurs in `hay` starting at position `at`. */
  predicate OccursAt(needle: string, hay: string, at: nat) {
    at + |needle| <= |hay| && hay[at..at + |needle|] == needle
  }

  /** The body of the in-panel success notification. */
  function AdminNotificationBody(trxId: string): (r: string)
    ensures OccursAt(trxId, r, |NotificationPrefix|)
  {
    NotificationPrefix + trxId + NotificationSuffix
  }

  /** Recovers the transaction id from a notification body, if the body has the
      notification's shape. */
  function TrxIdOfNotification(body: string): (r: Option<string>)
    ensures r.Some? ==> AdminNotificationBody(r.value) == body
  {
    var p := |NotificationPrefix|;
    var s := |NotificationSuffix|;
    if |body| >= p + s && body[..p] == NotificationPrefix && body[|body| - s..] == NotificationSuffix then
      var t := body[p..|body| - s];
      assert body == body[..p] + t + body[|body| - s..];
      Some(t)
    else None
  }

  /** The notification names the booking unambiguously: reading it back yields
      the transaction id it was built from. */
  lemma NotificationRoundTrip(trxId: string)
    ensures TrxIdOfNotification(AdminNotificationBody(trxId)) == Some(trxId)
  {
  }

  /** Distinct transaction ids give distinct notifications. */
  lemma NotificationInjective(t1: string, t2: string)
    ensures AdminNotificationBody(t1) == AdminNotificationBody(t2) ==> t1 == t2
  {
    NotificationRoundTrip(t1);
    NotificationRoundTrip(t2);
  }

  /** `x` sits right after `a` in `a + x + c`. */
  lemma OccursInMiddle(a: string, x: string, c: string)
    ensures OccursAt(x, a + x + c, |a|)
  {
    assert (a + x + c)[|a|..|a| + |x|] == x;
  }

  /** A text with three slots `x`, `y`, `z` between fixed texts: `g x c y p l z t`.
      Each slot sits right after the texts before it. */
  function ThreeSlots(g: string, x: string, c: string, y: string, p: string, l: string, z: string, t: string): (r: string)
    ensures OccursAt(x, r, |g|)
    ensures OccursAt(y, r, |g| + |x| + |c|)
    ensures OccursAt(z, r, |g| + |x| + |c| + |y| + |p| + |l|)
    ensures |r| == |g| + |x| + |c| + |y| + |p| + |l| + |z| + |t|
  {
    var r := g + x + c + y + p + l + z + t;
    assert r == g + x + (c + y + p + l + z + t);
    OccursInMiddle(g, x, c + y + p + l + z + t);
    assert r == (g + x + c) + y + (p + l + z + t);
    OccursInMiddle(g + x + c, y, p + l + z + t);
    assert r == (g + x + c + y + p + l) + z + t;
    OccursInMiddle(g + x + c + y + p + l, z, t);
    r
  }

  /** The customer's WhatsApp text: greeting with the name, the booking code,
      the office space to go to, and the contact line. Each of the three
      values sits at a fixed offset after the texts before it. */
  function CustomerMessage(name: string, trxId: string, officeName: string): (r: string)
    ensures OccursAt(name, r, |GreetingPrefix|)
    ensures OccursAt(trxId, r, |GreetingPrefix| + |name| + |CodeIntro|)
    ensures OccursAt(officeName, r, |GreetingPrefix| + |name| + |CodeIntro| + |trxId| + |PaidLine| + |LocationIntro|)
  {
    ThreeSlots(GreetingPrefix, name, CodeIntro, trxId, PaidLine, LocationIntro, officeName, LocationLine + ContactLine)
  }

  /** The customer message mentions the name, then the transaction id, then the
      office space name, without overlap and in that order. */
  lemma CustomerMessageOrder(name: string, trxId: string, officeName: string)
    returns (i: nat, j: nat, k: nat)
    ensures OccursAt(name, CustomerMessage(name, trxId, officeName), i)
    ensures OccursAt(trxId, CustomerMessage(name, trxId, officeName), j)
    ensures OccursAt(officeName, CustomerMessage(name, trxId, officeName), k)
    ensures i + |name| <= j && j + |trxId| <= k
  {
    i := |GreetingPrefix|;
    j := i + |name| + |CodeIntro|;
    k := j + |trxId| + |PaidLine| + |LocationIntro|;
  }

  datatype Notification = Notification(title: string, body: string)
  datatype WhatsAppMessage = WhatsAppMessage(to: string, from: string, body: string)

  /** Everything one run of the action produces: the saved record, the
      notification shown to the admin and the message handed to the provider. */
  datatype ApprovalEffects = ApprovalEffects(saved: Booking, notification: Notification, message: WhatsAppMessage)

  /** One run of the action's body. It checks nothing itself: the guard lives
      in `ApproveVisible`. Both texts are built from the record after the update. */
  function ApproveAction(b: Booking, officeName: string): (r: ApprovalEffects)
    ensures r.saved.is_paid && SameExceptPaid(b, r.saved)
    ensures r.notification.title == "Booking Approved"
    ensures TrxIdOfNotification(r.notification.body) == Some(b.booking_trx_id)
    ensures r.message.to == WhatsAppTo && r.message.from == WhatsAppFrom
    ensures r.message.body == CustomerMessage(b.name, b.booking_trx_id, officeName)
  {
    var saved := Approve(b);
    NotificationRoundTrip(saved.booking_trx_id);
    ApprovalEffects(
      saved,
      Notification(NotificationTitle, AdminNotificationBody(saved.booking_trx_id)),
      WhatsAppMessage(WhatsAppTo, WhatsAppFrom, CustomerMessage(saved.name, saved.booking_trx_id, officeName)))
  }

  /** An admin clicks "Approve" `clicks` times on the same booking, the table
      re-rendering in between: a click only reaches the action while the
      button is visible. Returns the final record and what each run emitted. */
  function ClickApprove(b: Booking, officeName: string, clicks: nat): (r: (Booking, seq<ApprovalEffects>))
    ensures clicks > 0 ==> r.0.is_paid
    ensures SameExceptPaid(b, r.0)
    ensures |r.1| <= clicks
    ensures forall run :: run in r.1 ==> run.saved == r.0
    decreases clicks
  {
    if clicks == 0 then (b, [])
    else if !ApproveVisible(b) then ClickApprove(b, officeName, clicks - 1)
    else
      var run := ApproveAction(b, officeName);
      var (last, later) := ClickApprove(run.saved, officeName, clicks - 1);
      (last, [run] + later)
  }

  /** Repeated clicks take at most one transition and run the action at most
      once, and only for a booking that was unpaid: that one run is the action
      on the original record. */
  lemma {:induction false} ClicksApproveOnce(b: Booking, officeName: string, clicks: nat)
    ensures ClickApprove(b, officeName, clicks).0 == (if clicks == 0 then b else Approve(b))
    ensures ClickApprove(b, officeName, clicks).1
      == (if clicks > 0 && !b.is_paid then [ApproveAction(b, officeName)] else [])
    decreases clicks
  {
    if clicks > 0 {
      if !ApproveVisible(b) {
        ClicksApproveOnce(b, officeName, clicks - 1);
        ApproveChangesOnlyUnpaid(b);
      } else {
        var run := ApproveAction(b, officeName);
        assert run.saved == Approve(b);
        ClicksApproveOnce(run.saved, officeName, clicks - 1);
        ApproveIdempotent(b);
      }
    }
  }

  /** Without the visibility guard the action would run again on a paid
      booking: the record stays the same, yet a second notification and message
      are produced. The guard alone prevents the duplicate. */
  lemma UnguardedRunRepeatsMessage(b: Booking, officeName: string)
    requires b.is_paid
    ensures ApproveAction(b, officeName).saved == b
    ensures ApproveAction(b, officeName).message.body == CustomerMessage(b.name, b.booking_trx_id, officeName)
    ensures !ApproveVisible(b)
  {
    ApproveChangesOnlyUnpaid(b);
  }
}
