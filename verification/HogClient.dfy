/** The discovery context of main/src/hog_client.c as it is updated in place by the GATT callbacks. */
module HogClient {
  import opened Basics
  import opened HogDiscovery
  import M = MouseFeature
  import Reconnect

  class Client {
    var discoveryActive: bool
    var finalizePending: bool
    var connHandle: int
    var service: Service
    var reportCount: nat
    var currentReportIndex: nat
    var pendingSubscriptions: nat
    const reports: array<Slot>
    const scheduler: Reconnect.Scheduler
    const scale: M.MouseScale
    var profile: Profile
    var inputActive: bool
    ghost var lastHandle: int
    ghost var env: Env

    ghost predicate Valid()
      reads this, reports
    {
      reports.Length == MAX_REPORTS && reportCount <= MAX_REPORTS
    }

    ghost function View(): State
      reads this, reports
      requires Valid()
    {
      State.State(Flags(discoveryActive, finalizePending, currentReportIndex, pendingSubscriptions),
                  service, lastHandle, reports[..reportCount], profile, inputActive, env)
    }

    constructor (scheduler: Reconnect.Scheduler, scale: M.MouseScale)
      ensures Valid() && fresh(reports) && this.scheduler == scheduler && this.scale == scale
    {
      this.scheduler, this.scale := scheduler, scale;
      discoveryActive, finalizePending, connHandle := false, false, 0;
      service := Service(0, 0);
      reportCount, currentReportIndex, pendingSubscriptions := 0, 0, 0;
      reports := new Slot[MAX_REPORTS](_ => NewSlot(Props(false, false, false), 0, 0));
      profile := NO_PROFILE;
      inputActive := false;
      lastHandle, env := 0, BLANK.env;
    }

    // ---------- Session ----------

    ghost method Post(post: Post)
      requires Valid()
      modifies this`env
      ensures Valid() && View() == PostEvent(old(View()), post)
    {
      env := env.(posts := env.posts + [post]);
    }

    ghost method Call(request: Request, err: int)
      requires Valid()
      modifies this`env
      ensures Valid() && View() == Ask(old(View()), request, err)
    {
      env := env.(calls := env.calls + 1, request := if err == 0 then request else NoRequest);
    }

    ghost method Answer()
      requires Valid()
      modifies this`env
      ensures Valid() && View() == Answered(old(View()))
    {
      env := env.(request := NoRequest);
    }

    method FailDiscovery(reason: Reason, post: Status) returns (status: Status)
      requires Valid()
      modifies this, scheduler
      ensures Valid() && View() == Fail(old(View()), reason) && status == post && connHandle == old(connHandle)
      ensures scheduler.View() == Reconnect.Failure(old(scheduler.View()))
      ensures scheduler.View() == Noted(old(scheduler.View()), env.posts, |old(env.posts)|)
    {
      discoveryActive := false;
      scheduler.NoteFailure();
      env := env.(disconnects := env.disconnects + 1);
      NotedNext(old(scheduler.View()), env.posts, |env.posts|, HidFailure(reason));
      Post(HidFailure(reason));
      status := post;
    }

    method CompleteDiscovery(post: Status) returns (status: Status)
      requires Valid()
      modifies this, scheduler
      ensures Valid() && View() == Complete(old(View())) && status == post && connHandle == old(connHandle)
      ensures scheduler.View() == Reconnect.Connected(old(scheduler.View()))
      ensures scheduler.View() == Noted(old(scheduler.View()), env.posts, |old(env.posts)|)
    {
      discoveryActive := false;
      scheduler.NoteConnected();
      NotedNext(old(scheduler.View()), env.posts, |env.posts|, NotReady);
      NotedNext(old(scheduler.View()), env.posts, |env.posts|, HidReady(profile));
      if !profile.keyboard {
        inputActive := false;
        Post(NotReady);
      } else {
        inputActive := true;
        Post(HidReady(profile));
      }
      status := post;
    }

    method SetProfileCapability(role: Role, enabled: bool)
      requires Valid()
      modifies this`profile
      ensures Valid() && profile == SetCapability(old(profile), role, enabled)
    {
      match role {
        case KeyboardInput => profile := profile.(keyboard := enabled);
        case ConsumerInput => profile := profile.(consumer := enabled);
        case MouseInput => profile := profile.(mouse := enabled);
        case MouseFeature => profile := profile.(feature := enabled);
        case LedOutput => profile := profile.(led := enabled);
        case Unknown =>
      }
    }

    method FinalizeSubscriptionPhase(post: Status)
      requires Valid()
      modifies this, scheduler
      ensures Valid() && View() == Finalize(old(View())) && connHandle == old(connHandle)
      ensures |old(env.posts)| <= |env.posts|
      ensures scheduler.View() == Noted(old(scheduler.View()), env.posts, |old(env.posts)|)
    {
      if finalizePending || pendingSubscriptions != 0 {
        return;
      }
      finalizePending := true;
      if !profile.keyboard {
        var _ := FailDiscovery(SubscribeFailed, post);
      } else {
        var _ := CompleteDiscovery(post);
      }
    }

    // ---------- Subscriptions ----------

    /** bt_gatt_subscribe for slot `i`, counted before the call and uncounted if it is refused. */
    method SubscribeSlot(i: nat, result: int) returns (err: int)
      requires Valid() && i < reportCount
      modifies this
      ensures Valid() && View() == Subscribe(old(View()), i, result)
      ensures err == (if result == EALREADY then 0 else result)
      ensures connHandle == old(connHandle) && reportCount == old(reportCount)
    {
      pendingSubscriptions := pendingSubscriptions + 1;
      env := env.(calls := env.calls + 1, asked := env.asked + {i});
      err := result;
      if err == EALREADY {
        err := 0;
        env := env.(already := env.already + 1);
      } else if err == 0 {
        env := env.(waiting := env.waiting + {i});
      }
      if err != 0 {
        pendingSubscriptions := pendingSubscriptions - 1;
      }
    }

    method StartSubscriptions(io: Io) returns (status: Status)
      requires Valid()
      modifies this, scheduler
      ensures Valid() && connHandle == old(connHandle)
      ensures (View(), status) == HogDiscovery.StartSubscriptions(old(View()), io)
      ensures |old(env.posts)| <= |env.posts|
      ensures scheduler.View() == Noted(old(scheduler.View()), env.posts, |old(env.posts)|)
    {
      var sawKeyboardCandidate := false;
      pendingSubscriptions := 0;
      env := env.(phases := env.phases + 1);
      var i := 0;
      while i < reportCount
        invariant Valid() && i <= reportCount && connHandle == old(connHandle)
        invariant SubscribeFrom(View(), i, sawKeyboardCandidate, io) == HogDiscovery.StartSubscriptions(old(View()), io)
        invariant env.posts == old(env.posts) && scheduler.View() == old(scheduler.View())
      {
        var slot := reports[i];
        assert slot == View().slots[i];
        if !Wanted(slot) {
          i := i + 1;
          continue;
        }
        if !CanSubscribe(slot) {
          if slot.role.KeyboardInput? {
            status := FailDiscovery(SubscribeFailed, io.post);
            return;
          }
          i := i + 1;
          continue;
        }
        sawKeyboardCandidate := sawKeyboardCandidate || slot.role.KeyboardInput?;
        var err := SubscribeSlot(i, io.subscribe[i]);
        if err != 0 && slot.role.KeyboardInput? {
          status := FailDiscovery(SubscribeFailed, io.post);
          return;
        }
        i := i + 1;
      }
      if !sawKeyboardCandidate {
        status := FailDiscovery(ReportMissing, io.post);
        return;
      }
      FinalizeSubscriptionPhase(io.post);
      status := OK;
    }

    // ---------- Walking the report table ----------

    method FindSlotByRole(role: Role) returns (i: nat)
      requires Valid()
      ensures i == FindRole(reports[..reportCount], role)
    {
      i := 0;
      while i < reportCount
        invariant i <= reportCount
        invariant forall k :: 0 <= k < i ==> reports[k].role != role
      {
        if reports[i].role == role {
          break;
        }
        i := i + 1;
      }
    }

    method StartMouseFeatureRead(io: Io) returns (status: Status)
      requires Valid()
      modifies this
      ensures Valid() && connHandle == old(connHandle)
      ensures (View(), status) == StartFeatureRead(old(View()), io)
    {
      var i := FindSlotByRole(MouseFeature);
      if i == reportCount {
        return NOT_FOUND;
      }
      if !reports[i].props.read {
        return INVALID_STATE;
      }
      Call(FeatureRequest, io.read);
      status := io.read;
    }

    method AdvanceAfterReportRef(io: Io) returns (status: Status)
      requires Valid() && currentReportIndex < reportCount
      modifies this, scheduler
      ensures Valid() && connHandle == old(connHandle)
      ensures (View(), status) == AdvanceAfterReference(old(View()), io)
      ensures |old(env.posts)| <= |env.posts|
      ensures scheduler.View() == Noted(old(scheduler.View()), env.posts, |old(env.posts)|)
      decreases 2 * (reportCount - currentReportIndex)
    {
      currentReportIndex := currentReportIndex + 1;
      if currentReportIndex >= reportCount {
        if profile.feature {
          status := StartMouseFeatureRead(io);
          if status == OK {
            return;
          }
        }
        status := StartSubscriptions(io);
        return;
      }
      status := StartDescriptorDiscovery(io);
    }

    method StartDescriptorDiscovery(io: Io) returns (status: Status)
      requires Valid() && currentReportIndex < reportCount
      modifies this, scheduler
      ensures Valid() && connHandle == old(connHandle)
      ensures (View(), status) == StartDescriptors(old(View()), io)
      ensures |old(env.posts)| <= |env.posts|
      ensures scheduler.View() == Noted(old(scheduler.View()), env.posts, |old(env.posts)|)
      decreases 2 * (reportCount - currentReportIndex) + 1
    {
      if reports[currentReportIndex].valueHandle >= reports[currentReportIndex].endHandle {
        status := AdvanceAfterReportRef(io);
        return;
      }
      Call(DescriptorRequest(currentReportIndex), io.discover);
      status := io.discover;
    }

    method LookIntoReports(io: Io)
      requires Valid() && reportCount > 0
      modifies this, scheduler
      ensures Valid() && View() == BeginDescriptors(old(View()), io)
      ensures scheduler.View() == Noted(old(scheduler.View()), env.posts, |old(env.posts)|)
    {
      currentReportIndex := 0;
      var status := StartDescriptorDiscovery(io);
      if status != OK {
        NotedNext(old(scheduler.View()), env.posts, |old(env.posts)|, HidFailure(ReportMissing));
        var _ := FailDiscovery(ReportMissing, io.post);
      }
    }

    // ---------- Callbacks ----------

    method OnServiceDiscovered(found: Option<Service>, io: Io)
      requires Valid()
      modifies this, scheduler
      ensures Valid()
      ensures View() == match found
                        case None => Fail(Answered(old(View())), ServiceMissing)
                        case Some(range) => OnServiceFound(old(View()), range.first, range.last, io)
      ensures scheduler.View() == Noted(old(scheduler.View()), env.posts, |old(env.posts)|)
    {
      if found.None? {
        Answer();
        var _ := FailDiscovery(ServiceMissing, io.post);
        return;
      }
      service, lastHandle := found.value, found.value.first;
      Call(CharacteristicRequest, io.discover);
      if io.discover != 0 {
        var _ := FailDiscovery(ServiceMissing, io.post);
      }
    }

    method OnCharacteristicDiscovered(handle: int, value: int, props: Props, isReport: bool, io: Io)
      requires Valid()
      modifies this, reports, scheduler
      ensures Valid() && View() == OnCharacteristic(old(View()), handle, value, props, isReport, io)
      ensures scheduler.View() == Noted(old(scheduler.View()), env.posts, |old(env.posts)|)
    {
      if reportCount >= reports.Length {
        Answer();
        return;
      }
      if reportCount > 0 {
        reports[reportCount - 1] := reports[reportCount - 1].(endHandle := handle - 1);
      }
      lastHandle := value;
      if isReport {
        reports[reportCount] := NewSlot(props, value, service.last);
        reportCount := reportCount + 1;
      }
      ghost var closed := CloseLastSlot(old(View()).slots, handle);
      assert reports[..reportCount] == if isReport then closed + [NewSlot(props, value, service.last)] else closed;
      if value >= service.last && reportCount > 0 {
        Answer();
        LookIntoReports(io);
      }
    }

    method OnCharacteristicsDone(io: Io)
      requires Valid()
      modifies this, scheduler
      ensures Valid() && View() == OnCharacteristicsEnd(old(View()), io)
      ensures scheduler.View() == Noted(old(scheduler.View()), env.posts, |old(env.posts)|)
    {
      Answer();
      if reportCount == 0 {
        var _ := FailDiscovery(ReportMissing, io.post);
      } else {
        LookIntoReports(io);
      }
    }

    method OnDescriptorDiscovered(handle: int, kind: DescriptorKind)
      requires Valid()
      modifies reports
      ensures Valid() && View() == OnDescriptor(old(View()), handle, kind)
    {
      if currentReportIndex >= reportCount {
        return;
      }
      var slot := reports[currentReportIndex];
      if kind.Ccc? {
        reports[currentReportIndex] := slot.(cccHandle := handle);
      } else if kind.ReportReference? {
        reports[currentReportIndex] := slot.(refHandle := handle);
      }
      assert kind.OtherDescriptor?
          || reports[..reportCount] == old(reports[..reportCount])[currentReportIndex := reports[currentReportIndex]];
    }

    method OnDescriptorsDone(io: Io)
      requires Valid()
      modifies this, scheduler
      ensures Valid() && View() == OnDescriptorsEnd(old(View()), io)
      ensures scheduler.View() == Noted(old(scheduler.View()), env.posts, |old(env.posts)|)
    {
      Answer();
      if currentReportIndex >= reportCount {
        return;
      }
      if reports[currentReportIndex].refHandle == 0 {
        var _ := AdvanceAfterReportRef(io);
        return;
      }
      Call(ReferenceRequest(currentReportIndex), io.read);
      if io.read != 0 {
        var _ := FailDiscovery(ReportMissing, io.post);
      }
    }

    method OnReportRefRead(err: int, data: Option<seq<Byte>>, io: Io)
      requires Valid()
      modifies this, reports, scheduler, scale
      ensures scale.View() ==
              if old(currentReportIndex) < old(reportCount) && err == 0 && data.Some? && |data.value| >= 2
              then M.OnRole(old(scale.View()), RoleFromReference(data.value[0] as int, data.value[1] as int))
              else old(scale.View())
      ensures Valid() && View() == OnReference(old(View()), err, data, io)
      ensures scheduler.View() == Noted(old(scheduler.View()), env.posts, |old(env.posts)|)
    {
      Answer();
      if currentReportIndex >= reportCount || data.None? {
        return;
      }
      if err != 0 || |data.value| < 2 {
        var _ := AdvanceAfterReportRef(io);
        return;
      }
      var id, kind := data.value[0] as int, data.value[1] as int;
      var role := RoleFromReference(id, kind);
      reports[currentReportIndex] := reports[currentReportIndex].(reportId := id, reportType := kind, role := role);
      assert reports[..reportCount] == old(reports[..reportCount])[currentReportIndex := reports[currentReportIndex]];
      if role.LedOutput? || role.MouseFeature? {
        SetProfileCapability(role, true);
      }
      if role.MouseFeature? && !scale.fromHost {
        scale.SetResolution(M.Resolution(M.RESOLUTION_MAX, M.RESOLUTION_MAX));
      }
      var _ := AdvanceAfterReportRef(io);
    }

    /** write_mouse_feature_to_peer */
    method WriteMouseFeature()
      requires Valid()
      modifies scale
      ensures scale.View() == M.WriteBack(old(scale.View()), reports[..reportCount])
    {
      var i := FindSlotByRole(MouseFeature);
      if i == reportCount || !reports[i].props.writeNoResponse {
        return;
      }
      scale.Send(reports[i].valueHandle);
    }

    /** set_mouse_resolution from the host's side. */
    method SetMouseResolution(r: M.Resolution)
      requires Valid()
      modifies scale
      ensures scale.View() == M.FromHost(old(scale.View()), reports[..reportCount], r)
    {
      scale.SetResolution(r);
      scale.HoldForHost();
      WriteMouseFeature();
    }

    method OnMouseFeatureRead(err: int, data: Option<seq<Byte>>, io: Io)
      requires Valid()
      modifies this, scheduler, scale
      ensures Valid() && View() == OnFeature(old(View()), data, io)
      ensures scheduler.View() == Noted(old(scheduler.View()), env.posts, |old(env.posts)|)
      ensures scale.View() == M.OnRead(old(scale.View()), old(reports[..reportCount]), err, data)
    {
      Answer();
      if data.None? {
        return;
      }
      if err == 0 && M.Decode(data.value).Ok? {
        if !scale.fromHost {
          scale.SetResolution(M.Decode(data.value).value);
        } else {
          WriteMouseFeature();
        }
      }
      var _ := StartSubscriptions(io);
    }

    method OnReportSubscribed(i: nat, err: int, post: Status)
      requires Valid()
      modifies this, reports, scheduler
      ensures Valid() && View() == OnSubscribed(old(View()), i, err)
      ensures scheduler.View() == Noted(old(scheduler.View()), env.posts, |old(env.posts)|)
    {
      if i >= reportCount {
        return;
      }
      if pendingSubscriptions > 0 {
        pendingSubscriptions := pendingSubscriptions - 1;
      }
      env := env.(waiting := env.waiting - {i});
      if err != 0 {
        if reports[i].role.KeyboardInput? {
          var _ := FailDiscovery(SubscribeFailed, post);
          return;
        }
        FinalizeSubscriptionPhase(post);
        return;
      }
      reports[i] := reports[i].(subscribed := true);
      assert reports[..reportCount] == old(reports[..reportCount])[i := reports[i]];
      SetProfileCapability(reports[i].role, true);
      FinalizeSubscriptionPhase(post);
    }

    /** on_report_notify with a NULL buffer. */
    method OnReportUnsubscribed(i: nat)
      requires Valid()
      modifies this, reports
      ensures Valid() && View() == OnUnsubscribed(old(View()), i)
    {
      if i >= reportCount {
        return;
      }
      reports[i] := reports[i].(subscribed := false);
      assert reports[..reportCount] == old(reports[..reportCount])[i := reports[i]];
      SetProfileCapability(reports[i].role, false);
    }

    /** hog_client_reset, but for the queue and the connection, which other modules own. */
    method Reset()
      requires Valid()
      modifies this, scale
      ensures Valid() && View() == BLANK && connHandle == 0
      ensures scale.View() == M.Clear(old(scale.View()))
    {
      scale.Forget();
      profile := NO_PROFILE;
      inputActive := false;
      discoveryActive, finalizePending, connHandle := false, false, 0;
      service := Service(0, 0);
      reportCount, currentReportIndex, pendingSubscriptions := 0, 0, 0;
      lastHandle, env := 0, BLANK.env;
    }

    /** start_discovery: a session that is already under way on the same connection is left alone. */
    method StartDiscovery(handle: int, io: Io) returns (status: Status)
      requires Valid()
      modifies this, scale
      ensures Valid() && connHandle == handle
      ensures var under := old(discoveryActive) && old(connHandle) == handle;
              && (View(), status) == (if under then (old(View()), OK) else (Begin(io), io.discover))
              && scale.View() == if under then old(scale.View()) else M.Clear(old(scale.View()))
    {
      if discoveryActive && connHandle == handle {
        return OK;
      }
      Reset();
      connHandle := handle;
      discoveryActive := true;
      Call(ServiceRequest, io.discover);
      status := io.discover;
    }
  }
}
