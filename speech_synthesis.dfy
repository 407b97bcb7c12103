/** The text-to-speech hook (hooks/useSpeechSynthesis.ts) over the browser's
    `speechSynthesis` service. The service is an object holding its voice list
    and its queue of pending utterances; the hook's React state is a second
    object, and the service's callbacks are methods the environment calls. */
module SpeechSynthesis {
  import opened Types

  /** A `SpeechSynthesisUtterance` as the hook configures it; `voice` is unset
      (None) when no voice was given. */
  datatype Utterance = Utterance(text: string, lang: string, rate: real, voice: Option<Voice>)

  /** `window.speechSynthesis`, or its absence (`available` false). */
  class SynthesisService {
    const available: bool
    var voices: seq<Voice>
    /** Utterances spoken or waiting to be spoken, the one speaking first. */
    var queue: seq<Utterance>

    constructor (available: bool, voices: seq<Voice>)
      ensures this.available == available && this.voices == voices && queue == []
    {
      this.available := available;
      this.voices := voices;
      queue := [];
    }

    /** `cancel()`: drop everything queued, including the current utterance. */
    method Cancel()
      requires available
      modifies this
      ensures queue == [] && voices == old(voices)
    {
      queue := [];
    }

    /** `speak(u)`: queue `u` behind whatever is already queued. */
    method Enqueue(u: Utterance)
      requires available
      modifies this
      ensures queue == old(queue) + [u] && voices == old(voices)
    {
      queue := queue + [u];
    }

    /** The platform installs a new voice list. */
    method ReplaceVoices(list: seq<Voice>)
      requires available
      modifies this
      ensures voices == list && queue == old(queue)
    {
      voices := list;
    }
  }

  class SynthesisHook {
    const service: SynthesisService
    var speaking: bool
    var supported: bool
    var voices: seq<Voice>
    /** Whether the hook's `onvoiceschanged` handler is installed on the service. */
    var subscribed: bool

    /** The hook's invariant, given that it is the service's only user: the hook
        is supported only where the service exists, and then it queues at most
        one utterance; it speaks only while something is queued; an unsupported
        hook has no voices and nothing queued. */
    ghost predicate Valid()
      reads this, service
    {
      (supported ==> service.available) &&
      (subscribed ==> supported) &&
      (!supported ==> voices == [] && service.queue == [] && !subscribed) &&
      |service.queue| <= 1 &&
      (speaking ==> service.queue != [])
    }

    /** The first render, before the mount effect has run. */
    constructor (service: SynthesisService)
      requires service.queue == []
      ensures Valid() && this.service == service
      ensures !speaking && !supported && voices == [] && !subscribed
    {
      this.service := service;
      speaking, supported, voices, subscribed := false, false, [], false;
    }

    /** The mount effect: where the service exists, mark the hook supported,
        read the voice list now, and listen for changes to it. */
    method Mount()
      requires Valid() && !supported
      modifies this
      ensures Valid()
      ensures supported == service.available && subscribed == service.available
      ensures voices == (if service.available then service.voices else [])
      ensures speaking == old(speaking)
    {
      if service.available {
        supported := true;
        voices := service.voices;
        subscribed := true;
      }
    }

    /** `onvoiceschanged`: re-read the service's voice list while subscribed. */
    method OnVoicesChanged()
      requires Valid()
      modifies this
      ensures Valid()
      ensures voices == (if subscribed then service.voices else old(voices))
      ensures speaking == old(speaking) && supported == old(supported) && subscribed == old(subscribed)
    {
      if subscribed {
        voices := service.voices;
      }
    }

    /** The effect's cleanup: stop listening for voice changes. */
    method Unmount()
      requires Valid()
      modifies this
      ensures Valid() && !subscribed
      ensures speaking == old(speaking) && supported == old(supported) && voices == old(voices)
    {
      subscribed := false;
    }

    /** `speak`: unless unsupported or already speaking, cancel whatever the
        service holds and queue one utterance with the given text, language and
        rate, and the voice when one is given. It does nothing while the
        speaking flag is set. */
    method Speak(text: string, lang: string, voice: Option<Voice>, rate: real)
      requires Valid()
      modifies service
      ensures Valid()
      ensures service.voices == old(service.voices)
      ensures !supported || speaking ==> service.queue == old(service.queue)
      ensures supported && !speaking ==> service.queue == [Utterance(text, lang, rate, voice)]
    {
      if !supported || speaking {
        return;
      }
      var u := Utterance(text, lang, rate, voice);
      service.Cancel();
      service.Enqueue(u);
    }

    /** `onstart` of the queued utterance. */
    method OnUtteranceStart()
      requires Valid() && service.queue != []
      modifies this
      ensures Valid() && speaking
      ensures supported == old(supported) && voices == old(voices) && subscribed == old(subscribed)
    {
      speaking := true;
    }

    /** `onend` or `onerror` of an utterance. When `finished`, it is the queued
        utterance that completed and the service drops it; otherwise it is one
        the service already dropped (a cancelled one reporting its error). The
        hook is not speaking afterwards either way. */
    method OnUtteranceEnd(finished: bool)
      requires Valid() && (finished ==> service.queue != [])
      modifies this, service
      ensures Valid() && !speaking
      ensures service.queue == (if finished then old(service.queue)[1..] else old(service.queue))
      ensures service.voices == old(service.voices)
      ensures supported == old(supported) && voices == old(voices) && subscribed == old(subscribed)
    {
      if finished {
        service.queue := service.queue[1..];
      }
      speaking := false;
    }

    /** `cancel`: without a service the call throws before any state changes
        (`threw`); otherwise the service's queue is emptied and the hook is not
        speaking. */
    method Cancel() returns (threw: bool)
      requires Valid()
      modifies this, service
      ensures Valid()
      ensures threw <==> !service.available
      ensures threw ==> speaking == old(speaking) && service.queue == old(service.queue)
      ensures !threw ==> !speaking && service.queue == []
      ensures service.voices == old(service.voices)
      ensures supported == old(supported) && voices == old(voices) && subscribed == old(subscribed)
    {
      if !service.available {
        return true;
      }
      service.Cancel();
      speaking := false;
      return false;
    }
  }
}
